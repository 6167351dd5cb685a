/**
 * The single-run benchmark logger (logger/tools/logger.py): the command builder, the send loop
 * that records each command and stops at the first pass that sees `state.connected` false, the
 * ack handler, the exit condition of the wait for outstanding acks, and the statistics. The
 * values of `state.connected` and `state.received_count` that the loops read are passed in as
 * sequences; times, uuids and payload sizes are passed in too. In the program `state.connected`
 * never drops once set: `on_disconnect` takes four parameters where paho's VERSION2 API passes
 * five, so it raises before clearing the flag, and every observed sequence is all true.
 */
module BenchLogger {
  import opened Wrappers
  import opened Json
  import opened SampleStats
  import opened PyDict
  import opened RttRecords
  import BenchmarkReport

  const AckWaitMs := 5000

  /** `"x" * n` */
  function Pad(n: nat): (p: string)
    ensures |p| == n && forall i :: 0 <= i < n ==> p[i] == 'x'
  {
    seq(n, _ => 'x')
  }

  /** `build_command(args, pad_bytes)` with the uuid `cmdId` and the timestamp `tsMs`; `mode` and
      `phase` are `args.mode` and `args.phase` (`None` when not given). */
  function BuildCommand(mode: Option<string>, phase: Option<int>, padBytes: int, cmdId: string, tsMs: int): JObj {
    var base := map["cmd_id" := JStr(cmdId), "ts_ms" := JInt(tsMs)];
    var typed :=
      if mode.Some? && mode.value != "" then base["type" := JStr("SET_MODE")]["mode" := JStr(mode.value)]
      else if phase.Some? then base["type" := JStr("SET_PHASE")]["phase" := JInt(phase.value)]
      else base["type" := JStr("SET_MODE")]["mode" := JStr("AUTO")];
    if padBytes > 0 then typed["pad" := JStr(Pad(padBytes))] else typed
  }

  /** The record `run_benchmark` stores for a command `cmd` sent at `tSend`. */
  function CommandRecord(cmd: JObj, tSend: int, payloadSize: int, actualBytes: int): Record
    requires "cmd_id" in cmd && cmd["cmd_id"].JStr? && "type" in cmd && cmd["type"].JStr?
  {
    Pending(cmd["cmd_id"].s, tSend,
            if "mode" in cmd && cmd["mode"].JStr? then Some(cmd["mode"].s) else None,
            if "phase" in cmd && cmd["phase"].JInt? then Some(cmd["phase"].i) else None,
            payloadSize, actualBytes, cmd["type"].s)
  }

  /** How many of the observed connection flags are true before the first false one: the number
      of commands the send loop gets through. */
  function LeadingConnected(connectedAt: seq<bool>): (k: nat)
    ensures k <= |connectedAt|
    ensures forall i :: 0 <= i < k ==> connectedAt[i]
    ensures k < |connectedAt| ==> !connectedAt[k]
  {
    if connectedAt == [] || !connectedAt[0] then 0 else 1 + LeadingConnected(connectedAt[1..])
  }

  /** The wait loop keeps polling while fewer acks than sends have arrived and less than 5 s have
      passed. */
  predicate WaitOver(received: int, sent: int, elapsedMs: int) {
    !(received < sent && elapsedMs < AckWaitMs)
  }

  /** The figures `calculate_statistics` returns. */
  datatype Stats = Stats(
    sent: int, received: int, lost: int, lossRate: real,
    mean: Option<real>, median: Option<real>, p95: Option<int>, max: Option<int>, min: Option<int>)

  /** `int(n * 0.95)`: below `n` for every non-empty list, so the unclamped index is in range. */
  function P95Index(n: nat): (i: nat)
    requires n > 0
    ensures i < n
  {
    assert n * 95 < n * 100;
    n * 95 / 100
  }

  /** The records hold at most one entry per counted send. */
  predicate Consistent(t: Tracker, sentCount: int) {
    PyDict.Valid(t.records) && |t.records.keys| <= sentCount
  }

  /** `calculate_statistics` */
  function CalculateStatistics(t: Tracker, sentCount: int): Stats
    requires Consistent(t, sentCount)
  {
    var rtts := Samples(t);
    if rtts == [] then Stats(sentCount, 0, sentCount, 100.0, None, None, None, None, None)
    else SampledStats(sentCount, t.receivedCount, Sort(rtts))
  }

  /** The figures for the sorted, non-empty samples `s`. */
  function SampledStats(sentCount: int, received: int, s: seq<int>): Stats
    requires sentCount > 0 && |s| > 0 && Sorted(s)
  {
    Stats(sentCount, received, sentCount - received,
          (sentCount - received) as real / sentCount as real * 100.0,
          Some(Mean(s)), Some(Median(s)), Some(s[P95Index(|s|)]), Some(SeqMax(s)), Some(SeqMin(s)))
  }

  class BenchmarkState {
    /** `records` */
    var records: Dict<Record>
    var sentCount: int
    var receivedCount: int
    var done: bool

    ghost predicate Valid()
      reads this
    {
      Consistent(Tracker(records, receivedCount), sentCount)
    }

    function Acks(): Tracker
      reads this
    {
      Tracker(records, receivedCount)
    }

    constructor ()
      ensures Valid() && Acks() == Tracker(Empty(), 0) && sentCount == 0 && !done
    {
      records := Empty();
      sentCount := 0;
      receivedCount := 0;
      done := false;
    }

    /** The body of one send: record the command and count it. */
    method RecordSend(cmd: JObj, tSend: int, payloadSize: int, actualBytes: int)
      requires Valid()
      requires "cmd_id" in cmd && cmd["cmd_id"].JStr? && "type" in cmd && cmd["type"].JStr?
      modifies this
      ensures Valid() && receivedCount == old(receivedCount) && done == old(done)
      ensures records == Set(old(records), cmd["cmd_id"].s, CommandRecord(cmd, tSend, payloadSize, actualBytes))
      ensures sentCount == old(sentCount) + 1
    {
      records := Set(records, cmd["cmd_id"].s, CommandRecord(cmd, tSend, payloadSize, actualBytes));
      sentCount := sentCount + 1;
    }

    /** The send loop of `run_benchmark` for `count` commands: before the `i`-th send the loop
        sees `connectedAt[i]` and stops if it is false. The `i`-th command has uuid `ids[i]`,
        timestamp `tsMs[i]`, send time `tSends[i]` and payload sizes `sizes[i]`, `bytes[i]`. */
    method SendLoop(count: int, mode: Option<string>, phase: Option<int>, padBytes: int,
                    connectedAt: seq<bool>, ids: seq<string>, tsMs: seq<int>, tSends: seq<int>,
                    sizes: seq<int>, bytes: seq<int>)
      requires Valid()
      requires |connectedAt| == (if count > 0 then count else 0)
      requires |ids| == |connectedAt| && |tsMs| == |ids| && |tSends| == |ids| && |sizes| == |ids| && |bytes| == |ids|
      modifies this
      ensures Valid() && receivedCount == old(receivedCount) && done == old(done)
      ensures sentCount == old(sentCount) + LeadingConnected(connectedAt)
      ensures forall i :: 0 <= i < LeadingConnected(connectedAt) ==>
        (ids[i] in records.items && records.items[ids[i]].rttMs.None? &&
         records.items[ids[i]] == CommandRecord(BuildCommand(mode, phase, padBytes, ids[i], tsMs[i]), tSends[i], sizes[i], bytes[i]))
        || (exists j :: i < j < LeadingConnected(connectedAt) && ids[j] == ids[i])
      ensures forall k :: k in old(records.items) && k !in ids[..LeadingConnected(connectedAt)] ==>
        k in records.items && records.items[k] == old(records.items)[k]
      ensures forall k :: k in records.items ==> k in old(records.items) || k in ids[..LeadingConnected(connectedAt)]
      ensures |records.keys| <= |old(records.keys)| + LeadingConnected(connectedAt)
    {
      ghost var sent := seq(|ids|, k requires 0 <= k < |ids| =>
        CommandRecord(BuildCommand(mode, phase, padBytes, ids[k], tsMs[k]), tSends[k], sizes[k], bytes[k]));
      var i := 0;
      while i < |connectedAt|
        invariant 0 <= i <= LeadingConnected(connectedAt)
        invariant Valid() && receivedCount == old(receivedCount) && done == old(done)
        invariant sentCount == old(sentCount) + i
        invariant HoldsLatest(records.items, ids, sent, i)
        invariant OnlyAssigned(records.items, old(records.items), ids, i)
        invariant |records.keys| <= |old(records.keys)| + i
      {
        if !connectedAt[i] {
          break;
        }
        var cmd := BuildCommand(mode, phase, padBytes, ids[i], tsMs[i]);
        assert cmd["cmd_id"].s == ids[i] && sent[i] == CommandRecord(cmd, tSends[i], sizes[i], bytes[i]);
        HoldsLatestStep(records.items, ids, sent, i);
        OnlyAssignedStep(records.items, old(records.items), ids, sent[i], i);
        RecordSend(cmd, tSends[i], sizes[i], bytes[i]);
        i := i + 1;
      }
      assert i == LeadingConnected(connectedAt);
    }

    /** `on_message` for a payload received at `tRecv`. */
    method OnMessage(msg: Inbound, tRecv: int)
      requires Valid()
      modifies this
      ensures Valid() && sentCount == old(sentCount) && done == old(done)
      ensures Acks() == AckStep(old(Acks()), msg, tRecv)
    {
      if msg.Unparseable? {
        return;
      }
      var cmdId := Get(msg.obj, "cmd_id");
      if cmdId.Some? && cmdId.value.JStr? && cmdId.value.s != "" && cmdId.value.s in records.items {
        var id := cmdId.value.s;
        var r := records.items[id];
        records := Set(records, id, r.(tAckRecvMs := Some(tRecv), rttMs := Some(tRecv - r.tSendMs)));
        receivedCount := receivedCount + 1;
      }
    }

    /** The wait for outstanding acks, then `state.done = True`. The loop checks its condition at
        each poll `p`, seeing `received[p]` acks after `elapsedMs[p]` ms; the last poll is past
        the deadline. It returns the poll at which it left. */
    method WaitForAcks(received: seq<int>, elapsedMs: seq<int>) returns (exitAt: int)
      requires |received| == |elapsedMs| > 0 && elapsedMs[|elapsedMs| - 1] >= AckWaitMs
      modifies this`done
      ensures done
      ensures 0 <= exitAt < |received| && WaitOver(received[exitAt], sentCount, elapsedMs[exitAt])
      ensures forall p :: 0 <= p < exitAt ==> !WaitOver(received[p], sentCount, elapsedMs[p])
    {
      exitAt := 0;
      while received[exitAt] < sentCount && elapsedMs[exitAt] < AckWaitMs
        invariant 0 <= exitAt < |received|
        invariant forall p :: 0 <= p < exitAt ==> !WaitOver(received[p], sentCount, elapsedMs[p])
        decreases |received| - exitAt
      {
        exitAt := exitAt + 1;
      }
      done := true;
    }
  }

  /** A given mode wins: SET_MODE with that mode; otherwise a given phase: SET_PHASE with that
      phase; otherwise SET_MODE AUTO. `cmd_id` and `ts_ms` are always present, and `pad` is there
      exactly when `pad_bytes > 0`, as that many `x` characters. */
  lemma BuildCommandShape(mode: Option<string>, phase: Option<int>, padBytes: int, cmdId: string, tsMs: int)
    ensures var cmd := BuildCommand(mode, phase, padBytes, cmdId, tsMs);
      cmd["cmd_id"] == JStr(cmdId) && cmd["ts_ms"] == JInt(tsMs) &&
      (mode.Some? && mode.value != "" ==>
        cmd["type"] == JStr("SET_MODE") && cmd["mode"] == JStr(mode.value) && "phase" !in cmd) &&
      (!(mode.Some? && mode.value != "") && phase.Some? ==>
        cmd["type"] == JStr("SET_PHASE") && cmd["phase"] == JInt(phase.value) && "mode" !in cmd) &&
      (!(mode.Some? && mode.value != "") && phase.None? ==>
        cmd["type"] == JStr("SET_MODE") && cmd["mode"] == JStr("AUTO") && "phase" !in cmd) &&
      ("pad" in cmd <==> padBytes > 0) &&
      (padBytes > 0 ==> cmd["pad"].JStr? && |cmd["pad"].s| == padBytes)
  {
  }

  /** Each recorded send is a pending record stamped with its send time, carrying the command's
      mode or phase and its type as the note. */
  lemma RecordedSendShape(mode: Option<string>, phase: Option<int>, padBytes: int, cmdId: string, tsMs: int,
                          tSend: int, size: int, bytes: int)
    ensures var r := CommandRecord(BuildCommand(mode, phase, padBytes, cmdId, tsMs), tSend, size, bytes);
      r.cmdId == cmdId && r.tSendMs == tSend && r.rttMs.None? && r.tAckRecvMs.None? &&
      (mode.Some? && mode.value != "" ==> r.note == "SET_MODE" && r.mode == mode && r.phase.None?) &&
      (!(mode.Some? && mode.value != "") && phase.Some? ==> r.note == "SET_PHASE" && r.mode.None? && r.phase == phase) &&
      (!(mode.Some? && mode.value != "") && phase.None? ==> r.note == "SET_MODE" && r.mode == Some("AUTO") && r.phase.None?)
  {
    BuildCommandShape(mode, phase, padBytes, cmdId, tsMs);
  }

  /** The send loop sends at most `count` commands, all of them while connected, and when it
      sends fewer it is because the connection was seen lost before the next one. */
  lemma SendLoopStops(connectedAt: seq<bool>)
    ensures LeadingConnected(connectedAt) <= |connectedAt|
    ensures LeadingConnected(connectedAt) < |connectedAt| ==> !connectedAt[LeadingConnected(connectedAt)]
    ensures (forall i :: 0 <= i < |connectedAt| ==> connectedAt[i]) ==> LeadingConnected(connectedAt) == |connectedAt|
  {
  }

  /** With no samples the statistics report no ack received, every send lost, a 100% loss rate
      and no figures. */
  lemma NoSamplesStatistics(t: Tracker, sentCount: int)
    requires Consistent(t, sentCount) && Samples(t) == []
    ensures CalculateStatistics(t, sentCount) == Stats(sentCount, 0, sentCount, 100.0, None, None, None, None, None)
  {
  }

  /** With samples the statistics are the figures of the sorted samples, and the least and
      greatest of them bound every sample. */
  lemma SampledStatistics(t: Tracker, sentCount: int)
    requires Consistent(t, sentCount) && Samples(t) != []
    ensures sentCount > 0
    ensures CalculateStatistics(t, sentCount) == SampledStats(sentCount, t.receivedCount, Sort(Samples(t)))
    ensures forall x :: x in Samples(t) ==> SeqMin(Sort(Samples(t))) <= x <= SeqMax(Sort(Samples(t)))
  {
    MinMaxBound(Samples(t), Sort(Samples(t)));
  }

  /** Lost is sent minus received, the loss rate is lost over sent in percent, the median is the
      middle sample (odd count) or lies halfway between the two middle samples (even count), and
      `p95` is the sorted sample at `int(n * 0.95)`. */
  lemma SampledFigures(sentCount: int, received: int, s: seq<int>)
    requires sentCount > 0 && |s| > 0 && Sorted(s)
    ensures var st := SampledStats(sentCount, received, s);
      var n := |s|;
      st.received == received && st.lost == sentCount - received &&
      st.lossRate == st.lost as real / sentCount as real * 100.0 &&
      st.median.Some? && (n % 2 == 1 ==> st.median.value == s[n / 2] as real) &&
      (n % 2 == 0 ==> st.median.value - s[n / 2 - 1] as real == s[n / 2] as real - st.median.value) &&
      st.p95 == Some(s[n * 95 / 100]) &&
      st.min == Some(SeqMin(s)) && st.max == Some(SeqMax(s))
  {
  }

  /** The least and greatest of the sorted samples bound every sample. */
  lemma MinMaxBound(rtts: seq<int>, s: seq<int>)
    requires |s| > 0 && multiset(s) == multiset(rtts)
    ensures forall x :: x in rtts ==> SeqMin(s) <= x <= SeqMax(s)
  {
    forall x | x in rtts
      ensures SeqMin(s) <= x <= SeqMax(s)
    {
      assert x in multiset(rtts);
      assert x in multiset(s);
      var k :| 0 <= k < |s| && s[k] == x;
    }
  }

  /** The logger's unclamped `p95` is the same sample as the benchmark report's clamped
      nearest-rank `percentile(rtts, 0.95)`. */
  lemma P95AgreesWithReport(s: seq<int>)
    requires |s| > 0
    ensures s[P95Index(|s|)] == BenchmarkReport.Percentile(s, 95)
  {
  }

  /** Recording sends and handling acks keep the records consistent with the counts, and keep
      the number of samples within the received count. */
  lemma SamplesWithinReceived(t: Tracker, sentCount: int, msg: Inbound, tRecv: int, cmd: JObj, tSend: int, size: int, bytes: int)
    requires Consistent(t, sentCount) && |Samples(t)| <= t.receivedCount
    requires "cmd_id" in cmd && cmd["cmd_id"].JStr? && "type" in cmd && cmd["type"].JStr?
    ensures var a := AckStep(t, msg, tRecv); Consistent(a, sentCount) && |Samples(a)| <= a.receivedCount
    ensures var r := Tracker(Set(t.records, cmd["cmd_id"].s, CommandRecord(cmd, tSend, size, bytes)), t.receivedCount);
      Consistent(r, sentCount + 1) && |Samples(r)| <= r.receivedCount
  {
    SamplesBoundedAfterAck(t, msg, tRecv);
    SamplesBoundedAfterSend(t, cmd["cmd_id"].s, CommandRecord(cmd, tSend, size, bytes));
  }
}
