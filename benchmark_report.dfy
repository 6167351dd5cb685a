/**
 * The benchmark runner (logger/tools/run_benchmark_report.py `RTTBenchmark`): the records of
 * one case, the per-case analysis (median, nearest-rank percentiles, outliers, loss and the
 * PASS/FAIL verdict) and the construction of the case list. Times are the integer milliseconds
 * `int(time.time() * 1000)`, passed in; the command ids (uuid4) and the serialised payload sizes
 * are passed in as well.
 */
module BenchmarkReport {
  import opened Wrappers
  import opened Json
  import opened SampleStats
  import opened PyDict
  import opened RttRecords

  datatype BenchmarkCase = BenchmarkCase(
    name: string, padBytes: int, count: int, intervalMs: int, description: string, expectedReject: bool)

  /** The record `run` stores for a command of case `c` sent at `tSend`. */
  function NewRecord(c: BenchmarkCase, cmdId: string, tSend: int, payloadSize: int, actualBytes: int): Record {
    Pending(cmdId, tSend, Some("AUTO"), None, payloadSize, actualBytes, c.name)
  }

  /** `[r.get("actual_payload_bytes", 0) for r in self.records.values()]` */
  function PayloadBytes(vals: seq<Record>): (r: seq<int>)
    ensures |r| == |vals|
  {
    if vals == [] then [] else [vals[0].actualPayloadBytes] + PayloadBytes(vals[1..])
  }

  /** The nearest-rank percentile `data[min(int(len(data) * k / 100), len(data) - 1)]` for a
      whole percentage `k`. */
  function Percentile(data: seq<int>, k: nat): (r: int)
    requires |data| > 0
    ensures r in data
  {
    var idx := |data| * k / 100;
    data[if idx < |data| - 1 then idx else |data| - 1]
  }

  function RealMin(a: real, b: real): real {
    if a <= b then a else b
  }

  /** The figures `_analyze` reports when there are samples. */
  datatype Summary = Summary(
    mean: real, median: real, std: real, minRtt: int, maxRtt: int,
    p50: int, p75: int, p90: int, p95: int, p99: int)

  /** `CaseResult` without the CSV file name. */
  datatype CaseResult = CaseResult(
    c: BenchmarkCase, sent: int, received: int, lost: int, lossRate: real,
    summary: Option<Summary>, outlierCount: nat, rtts: seq<int>,
    payloadMin: int, payloadMax: int, payloadMean: real, status: string, reason: string)

  /** The outlier threshold `min(p95 * 2, median + 3 * std)`. */
  function OutlierThreshold(p95: int, median: real, std: real): real {
    RealMin(2.0 * p95 as real, median + 3.0 * std)
  }

  /** `_analyze` for case `c`. `std` is the population standard deviation of the samples (a
      floating-point square root, taken as given). */
  function Analyze(c: BenchmarkCase, b: Tracker, std: real): (r: CaseResult)
    requires Valid(b.records)
  {
    var rtts := Samples(b);
    var pb := PayloadBytes(Values(b.records));
    var pMin := if pb == [] then 0 else SeqMin(pb);
    var pMax := if pb == [] then 0 else SeqMax(pb);
    var pMean := if pb == [] then 0.0 else Mean(pb);
    var sent := |b.records.keys|;
    if rtts == [] then
      CaseResult(c, sent, 0, sent, 100.0, None, 0, [], pMin, pMax, pMean,
                 if c.expectedReject then "PASS" else "FAIL",
                 if c.expectedReject then "Expected reject/no-ack (oversize)" else "Timeout/no-ack")
    else
      var (status, reason) := Verdict(c.expectedReject, LossRate(sent, b.receivedCount));
      SampledResult(c, sent, b.receivedCount, Sort(rtts), std, pMin, pMax, pMean, status, reason)
  }

  /** `((len(self.records) - self.received_count) / len(self.records)) * 100` */
  function LossRate(sent: int, received: int): real
    requires sent > 0
  {
    (sent - received) as real / sent as real * 100.0
  }

  /** The status and reason of a case that received acks. */
  function Verdict(expectedReject: bool, lossRate: real): (string, string) {
    if expectedReject then ("FAIL", "Unexpected ack for oversize payload")
    else if lossRate >= 1.0 then ("FAIL", "Loss >= 1%")
    else ("PASS", "")
  }

  /** The result of a case with the sorted samples `s`. */
  function SampledResult(c: BenchmarkCase, sent: int, received: int, s: seq<int>, std: real,
                         pMin: int, pMax: int, pMean: real, status: string, reason: string): CaseResult
    requires sent > 0 && |s| > 0 && Sorted(s)
  {
    var median := Median(s);
    var p95 := Percentile(s, 95);
    CaseResult(c, sent, received, sent - received, LossRate(sent, received),
               Some(Summary(Mean(s), median, std, SeqMin(s), SeqMax(s),
                            Percentile(s, 50), Percentile(s, 75), Percentile(s, 90), p95, Percentile(s, 99))),
               CountAbove(s, OutlierThreshold(p95, median, std)), s, pMin, pMax, pMean, status, reason)
  }

  /** The decimal digit `d`. */
  function Digit(d: nat): char
    requires d < 10
  {
    (48 + d) as char
  }

  /** `str(n)` for a natural number. */
  function NatToString(n: nat): (r: string)
    ensures 1 <= |r|
    ensures (n < 10) == (|r| == 1)
  {
    if n < 10 then [Digit(n)] else NatToString(n / 10) + [Digit(n % 10)]
  }

  /** `str(i)` for an integer. */
  function IntToString(i: int): string {
    if i < 0 then "-" + NatToString(-i) else NatToString(i)
  }

  /** `f"Case {k}"` */
  function CaseName(k: nat): string {
    "Case " + NatToString(k)
  }

  /** The description of a latency case. */
  function Description(pad: int): string {
    if pad == 0 then "Baseline" else "Payload +" + IntToString(pad) + "B (<=1KB expected)"
  }

  /** The description of the oversize case. */
  function OversizeDescription(oversize: int): string {
    "Oversize payload +" + IntToString(oversize) + "B (expected reject/no-ack)"
  }

  /** The cases `main` runs: one per pad value, then the oversize case when asked for. */
  method BuildCases(pads: seq<int>, count: int, intervalMs: int, oversize: int) returns (cases: seq<BenchmarkCase>)
    ensures |cases| == |pads| + (if oversize > 0 then 1 else 0)
    ensures forall i :: 0 <= i < |pads| ==>
      cases[i] == BenchmarkCase(CaseName(i + 1), pads[i], count, intervalMs, Description(pads[i]), false)
    ensures oversize > 0 ==>
      cases[|pads|] == BenchmarkCase(CaseName(|pads| + 1), oversize, count, intervalMs, OversizeDescription(oversize), true)
  {
    cases := [];
    for i := 0 to |pads|
      invariant |cases| == i
      invariant forall k :: 0 <= k < i ==>
        cases[k] == BenchmarkCase(CaseName(k + 1), pads[k], count, intervalMs, Description(pads[k]), false)
    {
      var pad := pads[i];
      var desc := if pad == 0 then "Baseline" else "Payload +" + IntToString(pad) + "B (<=1KB expected)";
      cases := cases + [BenchmarkCase(CaseName(i + 1), pad, count, intervalMs, desc, false)];
    }
    if oversize > 0 {
      cases := cases + [BenchmarkCase(CaseName(|cases| + 1), oversize, count, intervalMs, OversizeDescription(oversize), true)];
    }
  }

  /** After the first `n` sends of case `c`, every id sent so far holds a pending record of the
      case. */
  ghost predicate PendingOfCase(items: map<string, Record>, c: BenchmarkCase, ids: seq<string>, n: int)
    requires 0 <= n <= |ids|
  {
    forall j :: 0 <= j < n ==> ids[j] in items && items[ids[j]].rttMs.None? && items[ids[j]].note == c.name
  }

  /** One more send keeps `PendingOfCase`. */
  lemma PendingStep(items: map<string, Record>, c: BenchmarkCase, ids: seq<string>, r: Record, n: int)
    requires 0 <= n < |ids| && PendingOfCase(items, c, ids, n)
    requires r.rttMs.None? && r.note == c.name
    ensures PendingOfCase(items[ids[n] := r], c, ids, n + 1)
  {
  }

  class RttBenchmark {
    /** `self.records` */
    var records: Dict<Record>
    /** `self.received_count` */
    var receivedCount: int

    ghost predicate Valid()
      reads this
    {
      PyDict.Valid(records)
    }

    function Snapshot(): Tracker
      reads this
    {
      Tracker(records, receivedCount)
    }

    constructor ()
      ensures Valid() && Snapshot() == Tracker(Empty(), 0)
    {
      records := Empty();
      receivedCount := 0;
    }

    /** The start of `run`: records and the received count cleared. */
    method Reset()
      modifies this
      ensures Valid() && Snapshot() == Tracker(Empty(), 0)
    {
      records := Empty();
      receivedCount := 0;
    }

    /** `self.records[cmd_id] = {...}` for one command sent at `tSend`. */
    method RecordSend(c: BenchmarkCase, cmdId: string, tSend: int, payloadSize: int, actualBytes: int)
      requires Valid()
      modifies this
      ensures Valid() && receivedCount == old(receivedCount)
      ensures records == Set(old(records), cmdId, NewRecord(c, cmdId, tSend, payloadSize, actualBytes))
    {
      records := Set(records, cmdId, NewRecord(c, cmdId, tSend, payloadSize, actualBytes));
    }

    /** The send loop of `run`: one pending record per command, the `i`-th command having uuid
        `ids[i]`, send time `tSends[i]` and payload sizes `sizes[i]` and `bytes[i]`. */
    method SendCase(c: BenchmarkCase, ids: seq<string>, tSends: seq<int>, sizes: seq<int>, bytes: seq<int>)
      requires Valid()
      requires |ids| == (if c.count > 0 then c.count else 0)
      requires |tSends| == |ids| && |sizes| == |ids| && |bytes| == |ids|
      modifies this
      ensures Valid() && receivedCount == old(receivedCount)
      ensures forall i :: 0 <= i < |ids| ==>
        ids[i] in records.items && records.items[ids[i]].rttMs.None? && records.items[ids[i]].note == c.name
      ensures forall i :: 0 <= i < |ids| ==>
        records.items[ids[i]] == NewRecord(c, ids[i], tSends[i], sizes[i], bytes[i])
        || (exists j :: i < j < |ids| && ids[j] == ids[i])
      ensures |records.keys| <= |old(records.keys)| + |ids|
      ensures forall k :: k in old(records.items) && k !in ids ==> k in records.items && records.items[k] == old(records.items)[k]
      ensures forall k :: k in records.items ==> k in old(records.items) || k in ids
    {
      ghost var sent := seq(|ids|, k requires 0 <= k < |ids| => NewRecord(c, ids[k], tSends[k], sizes[k], bytes[k]));
      for i := 0 to |ids|
        invariant Valid() && receivedCount == old(receivedCount)
        invariant PendingOfCase(records.items, c, ids, i)
        invariant HoldsLatest(records.items, ids, sent, i)
        invariant forall k :: k in records.items ==> k in old(records.items) || exists j :: 0 <= j < i && ids[j] == k
        invariant |records.keys| <= |old(records.keys)| + i
        invariant forall k :: k in old(records.items) && k !in ids ==> k in records.items && records.items[k] == old(records.items)[k]
      {
        HoldsLatestStep(records.items, ids, sent, i);
        PendingStep(records.items, c, ids, sent[i], i);
        RecordSend(c, ids[i], tSends[i], sizes[i], bytes[i]);
      }
      forall i | 0 <= i < |ids|
        ensures records.items[ids[i]] == NewRecord(c, ids[i], tSends[i], sizes[i], bytes[i])
          || (exists j :: i < j < |ids| && ids[j] == ids[i])
      {
        assert sent[i] == NewRecord(c, ids[i], tSends[i], sizes[i], bytes[i]);
      }
    }

    /** `_on_message` for a payload received at `tRecv` (every exception is swallowed). */
    method OnMessage(msg: Inbound, tRecv: int)
      requires Valid()
      modifies this
      ensures Valid()
      ensures Snapshot() == AckStep(old(Snapshot()), msg, tRecv)
    {
      if msg.Unparseable? {
        return;
      }
      var cmdId := Get(msg.obj, "cmd_id");
      if cmdId.Some? && cmdId.value.JStr? && cmdId.value.s != "" && cmdId.value.s in records.items {
        var id := cmdId.value.s;
        var r := records.items[id];
        records := Set(records, id, r.(tAckRecvMs := Some(tRecv), rttMs := Some(tRecv - r.tSendMs)));
        receivedCount := receivedCount + 1;
      }
    }
  }

  /** With no samples the case passes exactly when it expected to be rejected; it reports no
      ack received, every command lost, a 100% loss rate and no figures. */
  lemma NoSamplesResult(c: BenchmarkCase, b: Tracker, std: real)
    requires Valid(b.records) && Samples(b) == []
    ensures var r := Analyze(c, b, std);
      (r.status == "PASS" <==> c.expectedReject) && (r.status == "FAIL" <==> !c.expectedReject) &&
      r.received == 0 && r.sent == |b.records.keys| && r.lost == r.sent && r.lossRate == 100.0 &&
      r.summary.None? && r.outlierCount == 0 && r.rtts == []
  {
  }

  /** With samples: an expected reject fails, otherwise a loss of 1% or more fails, otherwise the
      case passes; no latency figure takes part. Lost is sent minus received and the loss rate
      is lost over sent in percent. */
  lemma VerdictWithSamples(c: BenchmarkCase, b: Tracker, std: real, std2: real)
    requires Valid(b.records) && Samples(b) != []
    ensures var r := Analyze(c, b, std);
      r.sent == |b.records.keys| > 0 && r.received == b.receivedCount && r.lost == r.sent - r.received &&
      r.lossRate == r.lost as real / r.sent as real * 100.0 &&
      (r.status == "PASS" <==> !c.expectedReject && r.lossRate < 1.0) &&
      (r.status == "FAIL" <==> c.expectedReject || r.lossRate >= 1.0)
    ensures Analyze(c, b, std).status == Analyze(c, b, std2).status
  {
  }

  /** The samples are reported sorted, as a permutation of the collected round-trip times, and
      the reported minimum and maximum are their first and last elements. */
  lemma SamplesSorted(c: BenchmarkCase, b: Tracker, std: real)
    requires Valid(b.records) && Samples(b) != []
    ensures var r := Analyze(c, b, std);
      Sorted(r.rtts) && multiset(r.rtts) == multiset(Samples(b)) &&
      r.summary.Some? && r.summary.value.minRtt == r.rtts[0] && r.summary.value.maxRtt == r.rtts[|r.rtts| - 1]
  {
    var s := Sort(Samples(b));
    var m := SeqMin(s);
    var x := SeqMax(s);
    assert s[0] <= m && m <= s[0];
    assert s[|s| - 1] <= x && x <= s[|s| - 1];
  }

  /** The outliers are exactly the samples strictly above `min(2 * p95, median + 3 * std)`:
      on the sorted samples they form the top `outlierCount` entries. */
  lemma OutliersAreTopSamples(c: BenchmarkCase, b: Tracker, std: real)
    requires Valid(b.records) && Samples(b) != []
    ensures var r := Analyze(c, b, std);
      r.summary.Some? &&
      var t := OutlierThreshold(r.summary.value.p95, r.summary.value.median, std);
      (forall k :: 0 <= k < |r.rtts| - r.outlierCount ==> r.rtts[k] as real <= t) &&
      (forall k :: |r.rtts| - r.outlierCount <= k < |r.rtts| ==> r.rtts[k] as real > t)
  {
    var s := Sort(Samples(b));
    CountAboveIsTopSuffix(s, OutlierThreshold(Percentile(s, 95), Median(s), std));
  }

  /** The nearest-rank index grows with the percentage. */
  lemma RankMonotone(n: nat, k1: nat, k2: nat)
    requires k1 <= k2
    ensures n * k1 / 100 <= n * k2 / 100
  {
    assert n * k1 <= n * k2 by {
      assert n * k2 == n * k1 + n * (k2 - k1);
    }
  }

  /** On sorted samples a higher percentage never gives a lower percentile, and every percentile
      lies between the smallest and the largest sample. */
  lemma PercentileMonotone(s: seq<int>, k1: nat, k2: nat)
    requires |s| > 0 && Sorted(s) && k1 <= k2
    ensures s[0] <= Percentile(s, k1) <= Percentile(s, k2) <= s[|s| - 1]
  {
    RankMonotone(|s|, k1, k2);
  }

  /** `p50` is the upper middle sample, which is the median when the count is odd. */
  lemma P50IsUpperMiddle(s: seq<int>)
    requires |s| > 0 && Sorted(s)
    ensures Percentile(s, 50) == s[|s| / 2]
    ensures |s| % 2 == 1 ==> Percentile(s, 50) as real == Median(s)
  {
    var n := |s|;
    assert n * 50 / 100 == n / 2;
    assert n / 2 <= n - 1;
  }

  /** `p95` is never below the upper middle sample. */
  lemma P95AboveMiddle(s: seq<int>)
    requires |s| > 0 && Sorted(s)
    ensures s[|s| / 2] <= Percentile(s, 95)
  {
    P50IsUpperMiddle(s);
    PercentileMonotone(s, 50, 95);
  }

  /** With non-negative round-trip times and a non-negative standard deviation, the threshold
      is at least the median, so no sample up to the median is an outlier: at most half of the
      samples are counted. */
  lemma AtMostHalfAreOutliers(s: seq<int>, std: real)
    requires |s| > 0 && Sorted(s) && 0 <= s[0] && 0.0 <= std
    ensures CountAbove(s, OutlierThreshold(Percentile(s, 95), Median(s), std)) <= |s| / 2
  {
    var n := |s|;
    var p95 := Percentile(s, 95);
    var t := OutlierThreshold(p95, Median(s), std);
    P95AboveMiddle(s);
    assert Median(s) <= t;
    CountAboveIsTopSuffix(s, t);
    var c := CountAbove(s, t);
    assert s[(n - 1) / 2] as real <= t;
    assert !(n - c <= (n - 1) / 2);
  }

  /** Because a repeated ack counts twice, one command acked twice reports one more ack
      received than sent, a negative loss and a pass. */
  lemma DuplicateAckMasksLoss(c: BenchmarkCase)
    requires !c.expectedReject
    ensures var b0 := Tracker(Dict(["a"], map["a" := NewRecord(c, "a", 0, 10, 10)]), 0);
      var msg := Parsed(map["cmd_id" := JStr("a")]);
      var r := Analyze(c, AckStep(AckStep(b0, msg, 5), msg, 7), 0.0);
      r.sent == 1 && r.received == 2 && r.lost == -1 && r.lossRate == -100.0 && r.status == "PASS"
  {
    var b0 := Tracker(Dict(["a"], map["a" := NewRecord(c, "a", 0, 10, 10)]), 0);
    var msg := Parsed(map["cmd_id" := JStr("a")]);
    assert Get(map["cmd_id" := JStr("a")], "cmd_id") == Some(JStr("a"));
    var b2 := AckStep(AckStep(b0, msg, 5), msg, 7);
    assert b2.receivedCount == 2 && b2.records.keys == ["a"];
    assert Values(b2.records) == [b2.records.items["a"]];
    assert Samples(b2) == [7];
  }

  /** `str` is injective on natural numbers. */
  lemma {:induction false} NatToStringInjective(a: nat, b: nat)
    requires NatToString(a) == NatToString(b)
    ensures a == b
    decreases a
  {
    if a >= 10 && b >= 10 {
      var ra := NatToString(a);
      assert ra[..|ra| - 1] == NatToString(a / 10);
      assert ra[..|ra| - 1] == NatToString(b / 10);
      assert Digit(a % 10) == ra[|ra| - 1] == Digit(b % 10);
      NatToStringInjective(a / 10, b / 10);
    }
  }

  /** The cases built by `main` have pairwise distinct names. */
  lemma CaseNamesDistinct(i: nat, j: nat)
    requires i != j
    ensures CaseName(i) != CaseName(j)
  {
    if CaseName(i) == CaseName(j) {
      assert CaseName(i)[5..] == NatToString(i);
      assert CaseName(j)[5..] == NatToString(j);
      NatToStringInjective(i, j);
    }
  }
}
