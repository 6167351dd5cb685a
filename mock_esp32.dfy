/**
 * The Python stand-in for the device (logger/tools/mock_esp32.py `MockESP32`): command handling
 * with a 32-entry deque of seen command ids, the AUTO phase cycle and one iteration of the state
 * loop. Time is `now` in milliseconds (the source's `time.time()` seconds, scaled); published
 * messages are appended to `outbox`.
 */
module MockEsp32 {
  import opened Wrappers
  import opened Json
  import SvgGen

  const CacheSize := 32
  const PhaseDurations: seq<int> := [10000, 3000, 2000, 10000, 3000, 2000]
  const ModeNames: seq<string> := ["AUTO", "MANUAL", "BLINK", "OFF"]

  datatype Outbound =
    | Ack(cmdId: Option<JVal>, ok: bool, err: Option<string>, edgeRecvTsMs: int)
    | Status(online: bool, tsMs: int)
    | StateMsg(mode: string, phase: JVal, sinceMs: int, uptimeS: int, tsMs: int)
    | Telemetry(uptimeS: int, tsMs: int)

  /** The fields the handlers and the state loop update, and the outbox. `phase` is the Python
      value itself: an int, or the bool a SET_PHASE payload carried (see `PhaseValue`). */
  datatype Device = Device(
    mode: string, phase: JVal, phaseStart: int, blinkOn: bool,
    cache: seq<JVal>, telemetryCounter: int, outbox: seq<Outbound>)

  /** `deque(maxlen=32).append(x)`: a full deque drops its oldest entry. */
  function DequeAppend(d: seq<JVal>, x: JVal): (r: seq<JVal>)
    requires |d| <= CacheSize
    ensures 0 < |r| <= CacheSize && r[|r| - 1] == x
  {
    if |d| < CacheSize then d + [x] else d[1..] + [x]
  }

  /** The last `CacheSize` entries of `s` (all of them when there are fewer). */
  function LastEntries(s: seq<JVal>): (r: seq<JVal>)
    ensures |r| <= CacheSize
  {
    if |s| <= CacheSize then s else s[|s| - CacheSize..]
  }

  /** Python's `xs[i]`, where a negative index counts from the end. */
  function PyIndex(xs: seq<int>, i: int): int
    requires -|xs| <= i < |xs|
  {
    if i < 0 then xs[|xs| + i] else xs[i]
  }

  /** `isinstance(v, int)`: JSON integers, and the booleans, which Python counts as 0 and 1. */
  function PyIntValue(v: Option<JVal>): Option<int> {
    match v
    case Some(JInt(i)) => Some(i)
    case Some(JBool(b)) => Some(if b then 1 else 0)
    case _ => None
  }

  /** The values `self.phase` can hold: an int from -1 to 5, or a bool stored by SET_PHASE
      (Python's `isinstance(True, int)` holds, and `self.phase = phase` keeps the bool). */
  predicate ValidPhase(v: JVal) {
    (v.JInt? && -1 <= v.i <= 5) || v.JBool?
  }

  /** The integer Python computes with when `self.phase` is used as an index or in `+ 1`: a
      bool counts as 0 or 1. */
  function PhaseValue(v: JVal): (n: int)
    requires ValidPhase(v)
    ensures -1 <= n <= 5
    ensures PyIntValue(Some(v)) == Some(n)
  {
    if v.JBool? then (if v.b then 1 else 0) else v.i
  }

  /** `cmd_id[:8]` in the ack log line succeeds for strings and lists and raises otherwise. */
  predicate Sliceable(v: JVal) {
    v.JStr? || v.JArray?
  }

  /** `int(time.time() - self.start_time)`: whole seconds, truncated. */
  function UptimeS(now: int, startTime: int): int {
    TruncToInt((now - startTime) as real / 1000.0)
  }

  /** The message `_publish_state` builds at `now`. */
  function StateMessage(d: Device, now: int, startTime: int): Outbound {
    StateMsg(d.mode, d.phase, now - d.phaseStart, UptimeS(now, startTime), now)
  }

  /** What `_handle_command` leaves in `mode`, `phase` and `phase_start`, and `ok`/`err`. */
  datatype Decision = Decision(mode: string, phase: JVal, phaseStart: int, ok: bool, err: Option<string>)

  /** The dispatch of `_handle_command` at time `now`. */
  function Execute(d: Device, obj: JObj, now: int): Decision {
    var cmdType := GetOr(obj, "type", JStr(""));
    var refused := Decision(d.mode, d.phase, d.phaseStart, false, None);
    if cmdType == JStr("SET_MODE") then
      var mode := GetOr(obj, "mode", JStr(""));
      if mode.JStr? && mode.s in ModeNames then Decision(mode.s, d.phase, now, true, None)
      else refused.(err := Some("ERR_INVALID_MODE"))
    else if cmdType == JStr("SET_PHASE") then
      if d.mode != "MANUAL" then refused.(err := Some("ERR_NOT_MANUAL_MODE"))
      else
        var phase := PyIntValue(Get(obj, "phase"));
        if phase.Some? && 0 <= phase.value <= 5 then Decision(d.mode, obj["phase"], now, true, None)
        else refused.(err := Some("ERR_INVALID_PHASE"))
    else if cmdType == JStr("EMERGENCY") then Decision("BLINK", JInt(2), now, true, None)
    else refused.(err := Some("ERR_UNKNOWN_TYPE"))
  }

  /** `_on_message` (and `_handle_command`) on one inbound payload at `now`. */
  function OnMessageSpec(d: Device, msg: Inbound, now: int, startTime: int): Device
    requires |d.cache| <= CacheSize
  {
    match msg
    case Unparseable(_) => d
    case Parsed(obj) =>
      var cmdId := Get(obj, "cmd_id");
      if cmdId.None? || !PyTruthy(cmdId.value) then
        d.(outbox := d.outbox + [Ack(None, false, Some("ERR_INVALID_CMD"), now)])
      else if cmdId.value in d.cache then
        d.(outbox := d.outbox + [Ack(cmdId, true, None, now)])
      else
        var x := Execute(d, obj, now);
        var d1 := Device(x.mode, x.phase, x.phaseStart, d.blinkOn, DequeAppend(d.cache, cmdId.value),
                         d.telemetryCounter, d.outbox + [Ack(cmdId, x.ok, x.err, now)]);
        if Sliceable(cmdId.value) then d1.(outbox := d1.outbox + [StateMessage(d1, now, startTime)]) else d1
  }

  /** `_auto_cycle` at `now`. */
  function AutoCycle(d: Device, now: int): Device
    requires ValidPhase(d.phase)
  {
    var p := PhaseValue(d.phase);
    if now - d.phaseStart >= PyIndex(PhaseDurations, p) then d.(phase := JInt((p + 1) % 6), phaseStart := now)
    else d
  }

  /** One iteration of `_state_loop` at `now` (the one-second sleep is not modelled). */
  function StateTick(d: Device, connected: bool, now: int, startTime: int): Device
    requires ValidPhase(d.phase)
  {
    if !connected then d
    else
      var d1 :=
        if d.mode == "AUTO" then AutoCycle(d, now)
        else if d.mode == "BLINK" then d.(blinkOn := !d.blinkOn, phase := JInt(if !d.blinkOn then 2 else -1))
        else if d.mode == "OFF" then d.(phase := JInt(-1))
        else d;
      var d2 := d1.(outbox := d1.outbox + [StateMessage(d1, now, startTime)]);
      if d2.telemetryCounter + 1 >= 5 then
        d2.(telemetryCounter := 0, outbox := d2.outbox + [Telemetry(UptimeS(now, startTime), now)])
      else d2.(telemetryCounter := d2.telemetryCounter + 1)
  }

  class Mock {
    var mode: string
    var phase: JVal
    var phaseStart: int
    const startTime: int
    var connected: bool
    var blinkOn: bool
    /** `cmd_id_cache`, oldest first. */
    var cmdIdCache: seq<JVal>
    /** `_state_loop`'s local `telemetry_counter`. */
    var telemetryCounter: int
    var outbox: seq<Outbound>

    ghost predicate Valid()
      reads this
    {
      mode in ModeNames && ValidPhase(phase) && |cmdIdCache| <= CacheSize && 0 <= telemetryCounter < 5
    }

    function Snapshot(): Device
      reads this
    {
      Device(mode, phase, phaseStart, blinkOn, cmdIdCache, telemetryCounter, outbox)
    }

    /** `__init__` at time `now`: AUTO, phase 0, empty cache, not connected. */
    constructor (now: int)
      ensures Valid() && !connected && startTime == now
      ensures Snapshot() == Device("AUTO", JInt(0), now, false, [], 0, [])
    {
      mode := "AUTO";
      phase := JInt(0);
      phaseStart := now;
      startTime := now;
      connected := false;
      blinkOn := false;
      cmdIdCache := [];
      telemetryCounter := 0;
      outbox := [];
    }

    /** `_on_connect` with a successful return code: connected, online status published. */
    method OnConnect(now: int)
      requires Valid()
      modifies this
      ensures Valid() && connected
      ensures Snapshot() == old(Snapshot()).(outbox := old(outbox) + [Status(true, now)])
    {
      connected := true;
      outbox := outbox + [Status(true, now)];
    }

    /** `_on_disconnect` as registered. The client uses paho's VERSION2 callback API, which
        calls it with five arguments (client, userdata, flags, reason code, properties), but it
        accepts at most four besides `self`. The call raises TypeError before the body runs, so
        `connected` is never cleared and nothing else changes either. */
    method OnDisconnect()
      requires Valid()
      ensures Valid() && connected == old(connected) && Snapshot() == old(Snapshot())
    {
    }

    method PublishAck(cmdId: Option<JVal>, ok: bool, err: Option<string>, now: int)
      modifies this`outbox
      ensures outbox == old(outbox) + [Ack(cmdId, ok, err, now)]
    {
      outbox := outbox + [Ack(cmdId, ok, err, now)];
    }

    method PublishState(now: int)
      modifies this`outbox
      ensures outbox == old(outbox) + [StateMessage(old(Snapshot()), now, startTime)]
    {
      outbox := outbox + [StateMessage(Snapshot(), now, startTime)];
    }

    /** `_on_message`. A handler that raises (the ack log line slicing a non-sliceable id) stops
        where the exception is raised. */
    method OnMessage(msg: Inbound, now: int)
      requires Valid()
      modifies this
      ensures Valid() && connected == old(connected)
      ensures Snapshot() == OnMessageSpec(old(Snapshot()), msg, now, startTime)
    {
      if msg.Unparseable? {
        return;
      }
      var payload := msg.obj;
      var cmdId := Get(payload, "cmd_id");
      if cmdId.None? || !PyTruthy(cmdId.value) {
        PublishAck(None, false, Some("ERR_INVALID_CMD"), now);
        return;
      }
      if cmdId.value in cmdIdCache {
        PublishAck(cmdId, true, None, now);
        return;
      }
      HandleCommand(payload, cmdId.value, now);
    }

    /** The `cmd_type` branches of `_handle_command`: the fields they set and the ack's
        `ok` and `err`. */
    method Dispatch(payload: JObj, now: int) returns (ok: bool, err: Option<string>)
      requires Valid()
      modifies this
      ensures Valid() && connected == old(connected)
      ensures Decision(mode, phase, phaseStart, ok, err) == Execute(old(Snapshot()), payload, now)
      ensures blinkOn == old(blinkOn) && cmdIdCache == old(cmdIdCache)
      ensures telemetryCounter == old(telemetryCounter) && outbox == old(outbox)
    {
      var cmdType := GetOr(payload, "type", JStr(""));
      ok := false;
      err := None;

      if cmdType == JStr("SET_MODE") {
        var newMode := GetOr(payload, "mode", JStr(""));
        if newMode.JStr? && newMode.s in ModeNames {
          mode := newMode.s;
          phaseStart := now;
          ok := true;
        } else {
          err := Some("ERR_INVALID_MODE");
        }
      } else if cmdType == JStr("SET_PHASE") {
        if mode != "MANUAL" {
          err := Some("ERR_NOT_MANUAL_MODE");
        } else {
          var newPhase := PyIntValue(Get(payload, "phase"));
          if newPhase.Some? && 0 <= newPhase.value <= 5 {
            phase := payload["phase"];
            phaseStart := now;
            ok := true;
          } else {
            err := Some("ERR_INVALID_PHASE");
          }
        }
      } else if cmdType == JStr("EMERGENCY") {
        mode := "BLINK";
        phase := JInt(2);
        phaseStart := now;
        ok := true;
      } else {
        err := Some("ERR_UNKNOWN_TYPE");
      }
    }

    /** `_handle_command` for a first-seen id. */
    method HandleCommand(payload: JObj, cmdId: JVal, now: int)
      requires Valid() && cmdId !in cmdIdCache
      modifies this
      ensures Valid() && connected == old(connected)
      ensures var x := Execute(old(Snapshot()), payload, now);
        var d1 := Device(x.mode, x.phase, x.phaseStart, old(blinkOn), DequeAppend(old(cmdIdCache), cmdId),
                         old(telemetryCounter), old(outbox) + [Ack(Some(cmdId), x.ok, x.err, now)]);
        Snapshot() == if Sliceable(cmdId) then d1.(outbox := d1.outbox + [StateMessage(d1, now, startTime)]) else d1
    {
      var ok, err := Dispatch(payload, now);
      cmdIdCache := if |cmdIdCache| < CacheSize then cmdIdCache + [cmdId] else cmdIdCache[1..] + [cmdId];
      PublishAck(Some(cmdId), ok, err, now);
      if Sliceable(cmdId) {
        PublishState(now);
      }
    }

    /** `_auto_cycle` */
    method AutoCycleStep(now: int)
      requires Valid()
      modifies this
      ensures Valid() && connected == old(connected)
      ensures Snapshot() == AutoCycle(old(Snapshot()), now)
    {
      var elapsedMs := now - phaseStart;
      var index := PhaseValue(phase);
      var duration := if index < 0 then PhaseDurations[|PhaseDurations| + index] else PhaseDurations[index];
      if elapsedMs >= duration {
        phase := JInt((index + 1) % 6);
        phaseStart := now;
      }
    }

    /** One iteration of `_state_loop`. */
    method StateLoopStep(now: int)
      requires Valid()
      modifies this
      ensures Valid() && connected == old(connected)
      ensures Snapshot() == StateTick(old(Snapshot()), old(connected), now, startTime)
    {
      if connected {
        if mode == "AUTO" {
          AutoCycleStep(now);
        } else if mode == "BLINK" {
          blinkOn := !blinkOn;
          phase := JInt(if blinkOn then 2 else -1);
        } else if mode == "OFF" {
          phase := JInt(-1);
        }
        PublishState(now);
        telemetryCounter := telemetryCounter + 1;
        if telemetryCounter >= 5 {
          outbox := outbox + [Telemetry(UptimeS(now, startTime), now)];
          telemetryCounter := 0;
        }
      }
    }
  }

  /** A missing or falsy `cmd_id` (absent, null, "", 0, false, [], {}) gets one negative ack
      with a null id, is not cached and changes nothing else. */
  lemma MissingIdRejected(d: Device, obj: JObj, now: int, startTime: int)
    requires |d.cache| <= CacheSize
    requires "cmd_id" !in obj || !PyTruthy(obj["cmd_id"])
    ensures OnMessageSpec(d, Parsed(obj), now, startTime) ==
      d.(outbox := d.outbox + [Ack(None, false, Some("ERR_INVALID_CMD"), now)])
  {
  }

  /** A cached id gets a positive ack and nothing else: no execution and no state message. */
  lemma DuplicateNotReexecuted(d: Device, obj: JObj, now: int, startTime: int)
    requires |d.cache| <= CacheSize
    requires "cmd_id" in obj && PyTruthy(obj["cmd_id"]) && obj["cmd_id"] in d.cache
    ensures OnMessageSpec(d, Parsed(obj), now, startTime) ==
      d.(outbox := d.outbox + [Ack(Some(obj["cmd_id"]), true, None, now)])
  {
  }

  /** SET_MODE: one of the four mode names is stored and restarts the phase timer, keeping the
      phase; anything else is ERR_INVALID_MODE and changes nothing. */
  lemma SetModeOutcomes(d: Device, obj: JObj, now: int)
    requires GetOr(obj, "type", JStr("")) == JStr("SET_MODE")
    ensures var x := Execute(d, obj, now);
      var mode := GetOr(obj, "mode", JStr(""));
      if mode.JStr? && mode.s in ModeNames then x == Decision(mode.s, d.phase, now, true, None)
      else x == Decision(d.mode, d.phase, d.phaseStart, false, Some("ERR_INVALID_MODE"))
  {
  }

  /** SET_PHASE: outside MANUAL it is ERR_NOT_MANUAL_MODE whatever the phase; in MANUAL an
      integer (or boolean) 0..5 is stored as sent and restarts the timer; anything else,
      including 2.0 and "2", is ERR_INVALID_PHASE. Refusals change nothing. */
  lemma SetPhaseOutcomes(d: Device, obj: JObj, now: int)
    requires GetOr(obj, "type", JStr("")) == JStr("SET_PHASE")
    ensures var x := Execute(d, obj, now);
      var p := PyIntValue(Get(obj, "phase"));
      if d.mode != "MANUAL" then x == Decision(d.mode, d.phase, d.phaseStart, false, Some("ERR_NOT_MANUAL_MODE"))
      else if p.Some? && 0 <= p.value <= 5 then x == Decision("MANUAL", obj["phase"], now, true, None) && ValidPhase(x.phase)
      else x == Decision(d.mode, d.phase, d.phaseStart, false, Some("ERR_INVALID_PHASE"))
  {
  }

  /** The float 2.0 and the string "2" are refused, while the boolean true is accepted and kept
      as `True`, not as the phase 1 it passes for in the range test. */
  lemma PhaseTypeQuirks(d: Device, now: int)
    requires d.mode == "MANUAL"
    ensures Execute(d, map["type" := JStr("SET_PHASE"), "phase" := JFloat(2.0)], now).err == Some("ERR_INVALID_PHASE")
    ensures Execute(d, map["type" := JStr("SET_PHASE"), "phase" := JStr("2")], now).err == Some("ERR_INVALID_PHASE")
    ensures Execute(d, map["type" := JStr("SET_PHASE"), "phase" := JBool(true)], now) == Decision("MANUAL", JBool(true), now, true, None)
  {
    var m1 := map["type" := JStr("SET_PHASE"), "phase" := JFloat(2.0)];
    var m2 := map["type" := JStr("SET_PHASE"), "phase" := JStr("2")];
    var m3 := map["type" := JStr("SET_PHASE"), "phase" := JBool(true)];
    assert GetOr(m1, "type", JStr("")) == JStr("SET_PHASE") && Get(m1, "phase") == Some(JFloat(2.0));
    assert GetOr(m2, "type", JStr("")) == JStr("SET_PHASE") && Get(m2, "phase") == Some(JStr("2"));
    assert GetOr(m3, "type", JStr("")) == JStr("SET_PHASE") && Get(m3, "phase") == Some(JBool(true));
  }
  /** A SET_PHASE carrying `true` under a new string id publishes a state message whose `phase`
      is the JSON `true`. The dashboard draws that like phase 2 (all red) and labels it
      "UNKNOWN", where the integer 1 would show NS yellow under its own name. */
  lemma TruePhaseReachesDashboard(d: Device, id: string, now: int, startTime: int)
    requires d.mode == "MANUAL" && |d.cache| <= CacheSize && id != "" && JStr(id) !in d.cache
    ensures var r := OnMessageSpec(d, Parsed(map["cmd_id" := JStr(id), "type" := JStr("SET_PHASE"), "phase" := JBool(true)]), now, startTime);
      |r.outbox| == |d.outbox| + 2 && r.outbox[|r.outbox| - 1].StateMsg? &&
      r.outbox[|r.outbox| - 1].phase == JBool(true)
    ensures SvgGen.LampTable(Some(JBool(true))) == SvgGen.LampTable(Some(JInt(2)))
    ensures SvgGen.PhaseName(Some(JBool(true))) == "UNKNOWN"
    ensures SvgGen.LampTable(Some(JInt(1))) != SvgGen.LampTable(Some(JInt(2)))
    ensures SvgGen.PhaseName(Some(JInt(1))) == "NS YELLOW"
  {
    PhaseTypeQuirks(d, now);
    SvgGen.UnknownLabels();
    SvgGen.NumericPhaseName(1);
  }


  /** EMERGENCY always succeeds with BLINK and phase 2; an unknown type (including a missing
      one) is ERR_UNKNOWN_TYPE and changes nothing. */
  lemma EmergencyAndUnknown(d: Device, obj: JObj, now: int)
    ensures GetOr(obj, "type", JStr("")) == JStr("EMERGENCY") ==> Execute(d, obj, now) == Decision("BLINK", JInt(2), now, true, None)
    ensures GetOr(obj, "type", JStr("")) !in {JStr("SET_MODE"), JStr("SET_PHASE"), JStr("EMERGENCY")} ==>
      Execute(d, obj, now) == Decision(d.mode, d.phase, d.phaseStart, false, Some("ERR_UNKNOWN_TYPE"))
  {
  }

  /** Every first-seen id is cached, whether the command succeeded or not, and is followed by
      one ack and (for a string id) one state message carrying the new state. */
  lemma FirstSeenCachedThenAckedAndPublished(d: Device, obj: JObj, now: int, startTime: int)
    requires |d.cache| <= CacheSize
    requires "cmd_id" in obj && PyTruthy(obj["cmd_id"]) && obj["cmd_id"] !in d.cache
    requires obj["cmd_id"].JStr?
    ensures var r := OnMessageSpec(d, Parsed(obj), now, startTime);
      var x := Execute(d, obj, now);
      r.cache == DequeAppend(d.cache, obj["cmd_id"]) &&
      (r.mode, r.phase, r.phaseStart) == (x.mode, x.phase, x.phaseStart) &&
      r.outbox == d.outbox + [Ack(Some(obj["cmd_id"]), x.ok, x.err, now), StateMessage(r, now, startTime)]
  {
  }

  /** A redelivered command is acknowledged as a success without running again, even when its
      first delivery failed. */
  lemma RedeliveryIsNoOp(d: Device, obj: JObj, now: int, later: int, startTime: int)
    requires |d.cache| <= CacheSize
    requires "cmd_id" in obj && PyTruthy(obj["cmd_id"])
    ensures var once := OnMessageSpec(d, Parsed(obj), now, startTime);
      |once.cache| <= CacheSize &&
      OnMessageSpec(once, Parsed(obj), later, startTime) ==
        once.(outbox := once.outbox + [Ack(Some(obj["cmd_id"]), true, None, later)])
  {
    var once := OnMessageSpec(d, Parsed(obj), now, startTime);
    assert obj["cmd_id"] in once.cache by {
      if obj["cmd_id"] !in d.cache {
        assert once.cache[|once.cache| - 1] == obj["cmd_id"];
      }
    }
  }

  /** The deque after appending `xs` one by one. */
  function AppendAll(d: seq<JVal>, xs: seq<JVal>): (r: seq<JVal>)
    requires |d| <= CacheSize
    ensures |r| <= CacheSize
    decreases |xs|
  {
    if xs == [] then d else AppendAll(DequeAppend(d, xs[0]), xs[1..])
  }

  /** One append keeps "the last 32 of everything appended so far". */
  lemma DequeAppendKeepsLast(s: seq<JVal>, x: JVal)
    ensures DequeAppend(LastEntries(s), x) == LastEntries(s + [x])
  {
    if |s| > CacheSize {
      assert LastEntries(s)[1..] + [x] == (s + [x])[|s + [x]| - CacheSize..];
    }
  }

  /** The deque holds exactly the 32 most recent ids, oldest first: appending `xs` to a deque
      that held the last entries of `s` leaves the last entries of `s + xs`. */
  lemma {:induction false} DequeHoldsMostRecent(s: seq<JVal>, xs: seq<JVal>)
    ensures AppendAll(LastEntries(s), xs) == LastEntries(s + xs)
    decreases |xs|
  {
    if xs != [] {
      var t := s + [xs[0]];
      assert t + xs[1..] == s + xs by {
        assert xs == [xs[0]] + xs[1..];
      }
      DequeAppendKeepsLast(s, xs[0]);
      DequeHoldsMostRecent(t, xs[1..]);
    }
  }

  /** AUTO: the phase advances to `(phase + 1) % 6` and the timer restarts exactly when the
      phase's duration has elapsed; from phase -1 Python's index -1 selects the last duration
      (2000 ms) and the next phase is 0; a stored `True` indexes as 1 (3000 ms) and advances to
      the int 2. */
  lemma AutoCycleAdvance(d: Device, now: int)
    requires ValidPhase(d.phase)
    ensures var r := AutoCycle(d, now);
      var p := PhaseValue(d.phase);
      var due := now - d.phaseStart >= PyIndex(PhaseDurations, p);
      (due ==> r == d.(phase := JInt((p + 1) % 6), phaseStart := now) && r.phase.JInt? && 0 <= r.phase.i <= 5) &&
      (!due ==> r == d)
    ensures d.phase == JInt(-1) ==>
      (PyIndex(PhaseDurations, -1) == 2000 && (now - d.phaseStart >= 2000 ==> AutoCycle(d, now).phase == JInt(0)))
    ensures d.phase == JBool(true) ==>
      (now - d.phaseStart >= 3000 <==> AutoCycle(d, now).phase == JInt(2))
  {
  }

  /** The state loop while connected: BLINK alternates the phase between 2 and -1, OFF forces
      -1, MANUAL keeps it; each iteration publishes the state, and every fifth one telemetry. */
  lemma StateTickModes(d: Device, now: int, startTime: int)
    requires ValidPhase(d.phase) && 0 <= d.telemetryCounter < 5
    ensures var r := StateTick(d, true, now, startTime);
      (d.mode == "BLINK" ==> r.blinkOn == !d.blinkOn && r.phase == JInt(if r.blinkOn then 2 else -1)) &&
      (d.mode == "OFF" ==> r.phase == JInt(-1)) &&
      (d.mode == "MANUAL" ==> r.phase == d.phase && r.phaseStart == d.phaseStart) &&
      r.outbox[..|d.outbox| + 1] == d.outbox + [StateMessage(r.(outbox := d.outbox, telemetryCounter := d.telemetryCounter), now, startTime)] &&
      (d.telemetryCounter == 4 <==> |r.outbox| == |d.outbox| + 2) &&
      0 <= r.telemetryCounter < 5
    ensures StateTick(d, false, now, startTime) == d
  {
  }

  /** Two connected BLINK iterations return the phase to where the first one left it. */
  lemma BlinkAlternates(d: Device, now: int, later: int, startTime: int)
    requires ValidPhase(d.phase) && d.mode == "BLINK"
    ensures var r1 := StateTick(d, true, now, startTime);
      var r2 := StateTick(r1, true, later, startTime);
      {r1.phase, r2.phase} == {JInt(2), JInt(-1)} && r2.blinkOn == d.blinkOn
  {
  }
}
