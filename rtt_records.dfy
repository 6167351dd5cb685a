/**
 * The command records both benchmark tools keep (logger/tools/run_benchmark_report.py
 * `RTTBenchmark.records`, logger/tools/logger.py `BenchmarkState.records`): one record per sent
 * command keyed by command id, the received-ack counter, and the ack rule the two `on_message`
 * handlers share. Times are integer milliseconds.
 */
module RttRecords {
  import opened Wrappers
  import opened Json
  import opened PyDict

  /** One command record. `rttMs` is set once an ack for the command arrives. */
  datatype Record = Record(
    cmdId: string, tSendMs: int, tAckRecvMs: Option<int>, rttMs: Option<int>,
    mode: Option<string>, phase: Option<int>, payloadSize: int, actualPayloadBytes: int, note: string)

  /** The records and the received-ack counter. */
  datatype Tracker = Tracker(records: Dict<Record>, receivedCount: int)

  /** A record for a command sent at `tSend` that has not been acked. */
  function Pending(cmdId: string, tSend: int, mode: Option<string>, phase: Option<int>,
                   payloadSize: int, actualBytes: int, note: string): (r: Record)
    ensures r.rttMs.None? && r.tAckRecvMs.None? && r.tSendMs == tSend && r.note == note
  {
    Record(cmdId, tSend, None, None, mode, phase, payloadSize, actualBytes, note)
  }

  /** The `on_message` rule for one decoded payload received at `tRecv`: a truthy `cmd_id` that
      is a known key gets its ack time and round-trip time, and the received count goes up, even
      if the record was already acked. Anything else changes nothing. */
  function AckStep(t: Tracker, msg: Inbound, tRecv: int): (r: Tracker)
    requires Valid(t.records)
    ensures Valid(r.records) && r.records.keys == t.records.keys
  {
    match msg
    case Unparseable(_) => t
    case Parsed(obj) =>
      match Get(obj, "cmd_id")
      case Some(JStr(id)) =>
        if id != "" && id in t.records.items then
          var rec := t.records.items[id];
          Tracker(Set(t.records, id, rec.(tAckRecvMs := Some(tRecv), rttMs := Some(tRecv - rec.tSendMs))),
                  t.receivedCount + 1)
        else t
      case _ => t
  }

  /** `[r.rtt_ms for r in records.values() if r.rtt_ms is not None]` */
  function Rtts(vals: seq<Record>): (r: seq<int>)
    ensures |r| <= |vals|
  {
    if vals == [] then []
    else (match vals[0].rttMs case Some(x) => [x] case None => []) + Rtts(vals[1..])
  }

  /** The round-trip times of the records, in iteration order. */
  function Samples(t: Tracker): seq<int>
    requires Valid(t.records)
  {
    Rtts(Values(t.records))
  }

  /** An ack for a known id sets that record's ack time and round-trip time and counts one more
      received ack; no other record changes. Unknown, empty or non-string ids change nothing. */
  lemma AckHandling(t: Tracker, obj: JObj, tRecv: int)
    requires Valid(t.records)
    ensures var r := AckStep(t, Parsed(obj), tRecv);
      match Get(obj, "cmd_id")
      case Some(JStr(id)) =>
        if id != "" && id in t.records.items then
          r.receivedCount == t.receivedCount + 1 && r.records.items.Keys == t.records.items.Keys &&
          r.records.items[id].tAckRecvMs == Some(tRecv) &&
          r.records.items[id].rttMs == Some(tRecv - t.records.items[id].tSendMs) &&
          r.records.items[id].tSendMs == t.records.items[id].tSendMs &&
          (forall k :: k in t.records.items && k != id ==> r.records.items[k] == t.records.items[k])
        else r == t
      case _ => r == t
  {
  }

  /** Nothing stops a second ack for the same id: it overwrites the round-trip time with the
      later one and counts again. */
  lemma RepeatedAckCountsTwice(t: Tracker, id: string, t1: int, t2: int)
    requires Valid(t.records) && id != "" && id in t.records.items
    ensures var msg := Parsed(map["cmd_id" := JStr(id)]);
      var r := AckStep(AckStep(t, msg, t1), msg, t2);
      r.receivedCount == t.receivedCount + 2 && r.records.items[id].rttMs == Some(t2 - t.records.items[id].tSendMs)
  {
    assert Get(map["cmd_id" := JStr(id)], "cmd_id") == Some(JStr(id));
  }

  /** Appending a record adds its round-trip time, if it has one, at the end. */
  lemma {:induction false} RttsAppend(vals: seq<Record>, v: Record)
    ensures Rtts(vals + [v]) == Rtts(vals) + (match v.rttMs case Some(x) => [x] case None => [])
  {
    if vals == [] {
      assert [v][1..] == [];
    } else {
      assert (vals + [v])[1..] == vals[1..] + [v];
      RttsAppend(vals[1..], v);
    }
  }

  /** Replacing one record adds at most one sample, and none when the new record has no
      round-trip time. */
  lemma {:induction false} RttsReplace(vals: seq<Record>, i: int, v: Record)
    requires 0 <= i < |vals|
    ensures |Rtts(vals[i := v])| <= |Rtts(vals)| + (if v.rttMs.Some? then 1 else 0)
  {
    if i > 0 {
      assert vals[i := v][1..] == vals[1..][i - 1 := v];
      RttsReplace(vals[1..], i - 1, v);
    } else {
      assert vals[i := v][1..] == vals[1..];
    }
  }

  /** Every sample comes from a counted ack, so the number of samples never exceeds the
      received count; handling an ack keeps this. */
  lemma SamplesBoundedAfterAck(t: Tracker, msg: Inbound, tRecv: int)
    requires Valid(t.records) && |Samples(t)| <= t.receivedCount
    ensures |Samples(AckStep(t, msg, tRecv))| <= AckStep(t, msg, tRecv).receivedCount
  {
    var r := AckStep(t, msg, tRecv);
    if r != t {
      var id := msg.obj["cmd_id"].s;
      var v := r.records.items[id];
      ValuesAfterReplace(t.records, id, v);
      var i :| 0 <= i < |t.records.keys| && t.records.keys[i] == id && Values(r.records) == Values(t.records)[i := v];
      RttsReplace(Values(t.records), i, v);
    }
  }

  /** Recording a send keeps the bound too: the new record has no round-trip time. */
  lemma SamplesBoundedAfterSend(t: Tracker, id: string, v: Record)
    requires Valid(t.records) && |Samples(t)| <= t.receivedCount && v.rttMs.None?
    ensures |Samples(Tracker(Set(t.records, id, v), t.receivedCount))| <= t.receivedCount
  {
    if id in t.records.items {
      ValuesAfterReplace(t.records, id, v);
      var i :| 0 <= i < |t.records.keys| && t.records.keys[i] == id && Values(Set(t.records, id, v)) == Values(t.records)[i := v];
      RttsReplace(Values(t.records), i, v);
    } else {
      ValuesAfterInsert(t.records, id, v);
      RttsAppend(Values(t.records), v);
    }
  }
}
