/**
 * The Arduino firmware (esp32/src/main.cpp): the MQTT command callback and `handleCommand` with
 * a 10-slot ring of seen command ids, the FSM update with `getNextPhase` and the blink toggle,
 * the six-LED output table of `setLEDs`, and the disconnect failsafe. `millis()` readings are
 * passed in as `now`, a value in [0, 2^32); the firmware's `unsigned long` differences are
 * taken modulo 2^32. Published acks are appended to `outbox`; PubSubClient is not modelled.
 *
 * The LEDs are indexed NS red, NS yellow, NS green, EW red, EW yellow, EW green.
 */
module ArduinoFirmware {
  import opened Wrappers
  import opened Json

  const CacheSize := 10
  const NumPhases := 6
  const NumLeds := 6
  const U32 := 0x1_0000_0000
  const FailsafeTimeoutMs := 10000
  const BlinkIntervalMs := 500
  const IntMin := -0x8000_0000
  const IntMax := 0x7FFF_FFFF

  const NsRed := 0
  const NsYellow := 1
  const NsGreen := 2
  const EwRed := 3
  const EwYellow := 4
  const EwGreen := 5

  datatype Mode = Auto | Manual | Blink | Off

  /** `enum Phase`: NS green, NS yellow, all red, EW green, EW yellow, all red. */
  type Phase = p: int | 0 <= p < NumPhases

  /** `PHASE_DURATIONS` */
  function PhaseDuration(p: Phase): int {
    [15000, 3000, 1000, 15000, 3000, 1000][p]
  }

  /** `a - b` on two `unsigned long` (32-bit) readings. */
  function Elapsed(a: int, b: int): (r: int)
    ensures 0 <= r < U32
  {
    (a - b) % U32
  }

  /** An ack as `publishAck` serialises it; a missing `cmd_id` string is JSON null. */
  datatype Outbound = Ack(cmdId: Option<string>, ok: bool, err: Option<string>, tsMs: int)

  /** The FSM globals: `currentMode`, `currentPhase`, `phaseStartTime`, `lastBlinkToggle`,
      `blinkState` and `lastMqttConnected`. */
  datatype FwState = FwState(
    mode: Mode, phase: Phase, phaseStartTime: int, lastBlinkToggle: int, blinkState: bool,
    lastMqttConnected: int)

  /** The FSM globals, `cmdIdCache`, `cmdIdCacheIndex` and the outbox. */
  datatype FwSnapshot = FwSnapshot(fw: FwState, cache: seq<string>, cacheIndex: int, outbox: seq<Outbound>)

  /** What `handleCommand`'s dispatch leaves: the FSM globals, `ok` and `err`. */
  datatype Decision = Decision(fw: FwState, ok: bool, err: Option<string>)

  /** `doc[key] | ""`: the string value, or "" for a missing or non-string member. */
  function StrField(doc: JObj, key: string): (r: string)
    ensures (key in doc && doc[key].JStr?) ==> r == doc[key].s
    ensures !(key in doc && doc[key].JStr?) ==> r == ""
  {
    match Get(doc, key)
    case Some(JStr(s)) => s
    case _ => ""
  }

  /** `doc[key] | dflt` for an `int` default: the value when it is a JSON integer that fits a
      32-bit `int`; the default for floats, booleans, strings, out-of-range and missing values. */
  function IntField(doc: JObj, key: string, dflt: int): (r: int)
    ensures (key in doc && doc[key].JInt? && IntMin <= doc[key].i <= IntMax) ==> r == doc[key].i
    ensures !(key in doc && doc[key].JInt? && IntMin <= doc[key].i <= IntMax) ==> r == dflt
  {
    match Get(doc, key)
    case Some(JInt(i)) => if IntMin <= i <= IntMax then i else dflt
    case _ => dflt
  }

  /** The `const char *` a JSON value converts to: the string, or `nullptr` (`None`). */
  function IdOf(v: JVal): Option<string> {
    if v.JStr? then Some(v.s) else None
  }

  /** `doc["cmd_id"]` as `const char *`. */
  function CmdIdOf(doc: JObj): Option<string> {
    IdOf(GetOr(doc, "cmd_id", JNull))
  }

  /** How an id compares against, and is stored into, an Arduino `String`: `String(nullptr)` is
      empty, and a `String` compares equal to `nullptr` exactly when it is empty. */
  function CacheKey(id: Option<string>): (k: string)
    ensures id.Some? ==> k == id.value
    ensures id.None? ==> k == ""
  {
    id.GetOr("")
  }

  /** `cacheCommandId`: write the slot at the ring index and advance the index modulo 10. */
  function CacheInsert(cache: seq<string>, idx: int, key: string): (seq<string>, int)
    requires 0 <= idx < |cache|
  {
    (cache[idx := key], (idx + 1) % CacheSize)
  }

  /** The dispatch of `handleCommand` at time `now`. */
  function Execute(s: FwState, ty: string, doc: JObj, now: int): Decision {
    if ty == "SET_MODE" then
      var mode := StrField(doc, "mode");
      if mode == "AUTO" then Decision(s.(mode := Auto, phaseStartTime := now), true, None)
      else if mode == "MANUAL" then Decision(s.(mode := Manual), true, None)
      else if mode == "BLINK" then Decision(s.(mode := Blink, lastBlinkToggle := now), true, None)
      else if mode == "OFF" then Decision(s.(mode := Off), true, None)
      else Decision(s, false, Some("INVALID_MODE"))
    else if ty == "SET_PHASE" then
      if s.mode != Manual then Decision(s, false, Some("NOT_MANUAL_MODE"))
      else
        var phase := IntField(doc, "phase", -1);
        if 0 <= phase <= 5 then Decision(s.(phase := phase, phaseStartTime := now), true, None)
        else Decision(s, false, Some("INVALID_PHASE"))
    else if ty == "EMERGENCY" then Decision(s.(mode := Blink, phase := 2, phaseStartTime := now), true, None)
    else Decision(s, false, Some("UNKNOWN_CMD"))
  }

  /** The ring's shape: 10 slots and an index into them. */
  predicate RingShaped(h: FwSnapshot) {
    |h.cache| == CacheSize && 0 <= h.cacheIndex < CacheSize
  }

  /** `handleCommand` on a parsed document: dispatch, then cache the id whatever the outcome,
      then ack. */
  function HandleCommandSpec(h: FwSnapshot, doc: JObj, now: int): (r: FwSnapshot)
    requires RingShaped(h)
    ensures RingShaped(r)
  {
    var id := CmdIdOf(doc);
    var d := Execute(h.fw, StrField(doc, "type"), doc, now);
    var (cache, idx) := CacheInsert(h.cache, h.cacheIndex, CacheKey(id));
    FwSnapshot(d.fw, cache, idx, h.outbox + [Ack(id, d.ok, d.err, now)])
  }

  /** `mqttCallback` on one inbound payload at time `now`. */
  function CallbackSpec(h: FwSnapshot, msg: Inbound, now: int): (r: FwSnapshot)
    requires RingShaped(h)
    ensures RingShaped(r)
  {
    match msg
    case Unparseable(partial) =>
      if "cmd_id" in partial then h.(outbox := h.outbox + [Ack(IdOf(partial["cmd_id"]), false, Some("INVALID_JSON"), now)])
      else h
    case Parsed(doc) =>
      if "cmd_id" !in doc then h
      else if CacheKey(CmdIdOf(doc)) in h.cache then h.(outbox := h.outbox + [Ack(CmdIdOf(doc), true, None, now)])
      else HandleCommandSpec(h, doc, now)
  }

  /** `getNextPhase` */
  function NextPhase(p: Phase): Phase {
    match p
    case 0 => 1
    case 1 => 2
    case 2 => 3
    case 3 => 4
    case 4 => 5
    case 5 => 0
  }

  /** `updateFSM` at time `now`. */
  function UpdateStep(s: FwState, now: int): FwState {
    match s.mode
    case Auto =>
      if Elapsed(now, s.phaseStartTime) >= PhaseDuration(s.phase) then s.(phase := NextPhase(s.phase), phaseStartTime := now)
      else s
    case Manual => s
    case Blink =>
      if Elapsed(now, s.lastBlinkToggle) >= BlinkIntervalMs then s.(blinkState := !s.blinkState, lastBlinkToggle := now)
      else s
    case Off => s
  }

  /** `checkFailsafe` at time `now`, with `connected` what `mqtt.connected()` reports. */
  function FailsafeStep(s: FwState, connected: bool, now: int): FwState {
    if !connected && Elapsed(now, s.lastMqttConnected) > FailsafeTimeoutMs && s.mode != Auto then
      s.(mode := Auto, phaseStartTime := now)
    else s
  }

  /** One pass of `loop()` after the connection handling: stamp `lastMqttConnected` when the
      first `mqtt.connected()` read succeeds, then `checkFailsafe` with its own read, then
      `updateFSM` (the LEDs follow from the result). The two reads differ when `reconnectMQTT`
      connects in between (`atStart` false, `atFailsafe` true) or the link drops in between. */
  function LoopStep(s: FwState, atStart: bool, atFailsafe: bool, now: int): FwState {
    var s1 := if atStart then s.(lastMqttConnected := now) else s;
    UpdateStep(FailsafeStep(s1, atFailsafe, now), now)
  }

  /** The LED levels `setLEDs` leaves for a mode, a phase and the blink state. */
  function LedTable(mode: Mode, phase: Phase, blinkState: bool): (r: seq<bool>)
    ensures |r| == NumLeds
  {
    match mode
    case Off => [false, false, false, false, false, false]
    case Blink => [false, blinkState, false, false, blinkState, false]
    case _ =>
      match phase
      case 0 => [false, false, true, true, false, false]
      case 1 => [false, true, false, true, false, false]
      case 2 => [true, false, false, true, false, false]
      case 3 => [true, false, false, false, false, true]
      case 4 => [true, false, false, false, true, false]
      case 5 => [true, false, false, true, false, false]
  }

  class Firmware {
    var currentMode: Mode
    var currentPhase: Phase
    var phaseStartTime: int
    var lastBlinkToggle: int
    var blinkState: bool
    var lastMqttConnected: int
    /** `cmdIdCache` */
    const cmdIdCache: array<string>
    /** `cmdIdCacheIndex` */
    var cmdIdCacheIndex: int
    /** The six LED output levels. */
    const leds: array<bool>
    var outbox: seq<Outbound>

    ghost predicate Valid()
      reads this
    {
      cmdIdCache.Length == CacheSize && 0 <= cmdIdCacheIndex < CacheSize && leds.Length == NumLeds
    }

    ghost function State(): FwState
      reads this
    {
      FwState(currentMode, currentPhase, phaseStartTime, lastBlinkToggle, blinkState, lastMqttConnected)
    }

    ghost function Snapshot(): FwSnapshot
      reads this, cmdIdCache
    {
      FwSnapshot(State(), cmdIdCache[..], cmdIdCacheIndex, outbox)
    }

    /** The globals' initial values and `setup()` at time `now`: AUTO, phase 0, LEDs off, the
        phase timer and the connection stamp set to `now`, every cache slot empty. */
    constructor (now: int)
      ensures Valid() && fresh(cmdIdCache) && fresh(leds)
      ensures Snapshot() == FwSnapshot(FwState(Auto, 0, now, 0, false, now), seq(CacheSize, _ => ""), 0, [])
      ensures leds[..] == LedTable(Off, 0, false)
    {
      currentMode := Auto;
      currentPhase := 0;
      phaseStartTime := now;
      lastBlinkToggle := 0;
      blinkState := false;
      lastMqttConnected := now;
      cmdIdCache := new string[CacheSize](_ => "");
      cmdIdCacheIndex := 0;
      leds := new bool[NumLeds](_ => false);
      outbox := [];
    }

    /** `isCommandProcessed`: a linear search over the ten slots. */
    method IsCommandProcessed(key: string) returns (found: bool)
      requires Valid()
      ensures found <==> key in cmdIdCache[..]
    {
      for i := 0 to CacheSize
        invariant key !in cmdIdCache[..i]
      {
        if cmdIdCache[i] == key {
          assert cmdIdCache[..][i] == key;
          return true;
        }
        assert cmdIdCache[..i + 1] == cmdIdCache[..i] + [cmdIdCache[i]];
      }
      assert cmdIdCache[..CacheSize] == cmdIdCache[..];
      return false;
    }

    /** `cacheCommandId` */
    method CacheCommandId(key: string)
      requires Valid()
      modifies this, cmdIdCache
      ensures Valid() && State() == old(State()) && outbox == old(outbox)
      ensures (cmdIdCache[..], cmdIdCacheIndex) == CacheInsert(old(cmdIdCache[..]), old(cmdIdCacheIndex), key)
    {
      cmdIdCache[cmdIdCacheIndex] := key;
      cmdIdCacheIndex := (cmdIdCacheIndex + 1) % CacheSize;
    }

    /** `publishAck`, stamped with `now`. */
    method PublishAck(cmdId: Option<string>, ok: bool, err: Option<string>, now: int)
      modifies this`outbox
      ensures outbox == old(outbox) + [Ack(cmdId, ok, err, now)]
    {
      outbox := outbox + [Ack(cmdId, ok, err, now)];
    }

    /** `handleCommand` */
    method HandleCommand(doc: JObj, now: int)
      requires Valid()
      modifies this, cmdIdCache
      ensures Valid()
      ensures Snapshot() == HandleCommandSpec(old(Snapshot()), doc, now)
    {
      var cmdId := CmdIdOf(doc);
      var ty := StrField(doc, "type");
      var ok := false;
      var err: Option<string> := None;

      if ty == "SET_MODE" {
        var modeStr := StrField(doc, "mode");
        if modeStr == "AUTO" {
          currentMode := Auto;
          phaseStartTime := now;
          ok := true;
        } else if modeStr == "MANUAL" {
          currentMode := Manual;
          ok := true;
        } else if modeStr == "BLINK" {
          currentMode := Blink;
          lastBlinkToggle := now;
          ok := true;
        } else if modeStr == "OFF" {
          currentMode := Off;
          ok := true;
        } else {
          err := Some("INVALID_MODE");
        }
      } else if ty == "SET_PHASE" {
        if currentMode != Manual {
          err := Some("NOT_MANUAL_MODE");
        } else {
          var phase := IntField(doc, "phase", -1);
          if 0 <= phase <= 5 {
            // The all-red transition is written and then immediately overwritten.
            if currentPhase != 2 && currentPhase != 5 && phase != 2 && phase != 5 {
              currentPhase := 2;
              phaseStartTime := now;
            }
            currentPhase := phase;
            phaseStartTime := now;
            ok := true;
          } else {
            err := Some("INVALID_PHASE");
          }
        }
      } else if ty == "EMERGENCY" {
        currentMode := Blink;
        currentPhase := 2;
        phaseStartTime := now;
        ok := true;
      } else {
        err := Some("UNKNOWN_CMD");
      }

      CacheCommandId(CacheKey(cmdId));
      PublishAck(cmdId, ok, err, now);
    }

    /** `mqttCallback` */
    method MqttCallback(msg: Inbound, now: int)
      requires Valid()
      modifies this, cmdIdCache
      ensures Valid()
      ensures Snapshot() == CallbackSpec(old(Snapshot()), msg, now)
    {
      if msg.Unparseable? {
        if "cmd_id" in msg.partial {
          PublishAck(IdOf(msg.partial["cmd_id"]), false, Some("INVALID_JSON"), now);
        }
        return;
      }
      var doc := msg.obj;
      if "cmd_id" !in doc {
        return;
      }
      var cmdId := CmdIdOf(doc);
      var processed := IsCommandProcessed(CacheKey(cmdId));
      if processed {
        PublishAck(cmdId, true, None, now);
        return;
      }
      HandleCommand(doc, now);
    }

    /** `getNextPhase` is pure; `updateFSM` at time `now` */
    method UpdateFsm(now: int)
      requires Valid()
      modifies this
      ensures Valid() && State() == UpdateStep(old(State()), now)
      ensures cmdIdCacheIndex == old(cmdIdCacheIndex) && outbox == old(outbox)
    {
      var elapsed := (now - phaseStartTime) % U32;
      match currentMode {
        case Auto =>
          if elapsed >= PhaseDuration(currentPhase) {
            currentPhase := NextPhase(currentPhase);
            phaseStartTime := now;
          }
        case Manual =>
        case Blink =>
          if (now - lastBlinkToggle) % U32 >= BlinkIntervalMs {
            blinkState := !blinkState;
            lastBlinkToggle := now;
          }
        case Off =>
      }
    }

    /** `setLEDs`: every LED low, then the lamps of the mode and phase high. */
    method SetLeds()
      requires Valid()
      modifies leds
      ensures leds[..] == LedTable(currentMode, currentPhase, blinkState)
    {
      leds[NsRed] := false;
      leds[NsYellow] := false;
      leds[NsGreen] := false;
      leds[EwRed] := false;
      leds[EwYellow] := false;
      leds[EwGreen] := false;

      if currentMode == Off {
        assert leds[..] == LedTable(currentMode, currentPhase, blinkState);
        return;
      }
      if currentMode == Blink {
        if blinkState {
          leds[NsYellow] := true;
          leds[EwYellow] := true;
        }
        assert leds[..] == LedTable(currentMode, currentPhase, blinkState);
        return;
      }
      match currentPhase {
        case 0 =>
          leds[NsGreen] := true;
          leds[EwRed] := true;
        case 1 =>
          leds[NsYellow] := true;
          leds[EwRed] := true;
        case 2 =>
          leds[NsRed] := true;
          leds[EwRed] := true;
        case 5 =>
          leds[NsRed] := true;
          leds[EwRed] := true;
        case 3 =>
          leds[EwGreen] := true;
          leds[NsRed] := true;
        case 4 =>
          leds[EwYellow] := true;
          leds[NsRed] := true;
      }
      assert leds[..] == LedTable(currentMode, currentPhase, blinkState);
    }

    /** `checkFailsafe` at time `now`. */
    method CheckFailsafe(connected: bool, now: int)
      requires Valid()
      modifies this
      ensures Valid() && State() == FailsafeStep(old(State()), connected, now)
      ensures cmdIdCacheIndex == old(cmdIdCacheIndex) && outbox == old(outbox)
    {
      if !connected {
        var disconnectedTime := (now - lastMqttConnected) % U32;
        if disconnectedTime > FailsafeTimeoutMs && currentMode != Auto {
          currentMode := Auto;
          phaseStartTime := now;
        }
      }
    }

    /** One `loop()` pass at time `now` after the connection handling: the connection stamp,
        the failsafe, the FSM update and the LEDs. `atStart` is what the first
        `mqtt.connected()` read reports and `atFailsafe` what the read in `checkFailsafe`
        reports. */
    method Loop(atStart: bool, atFailsafe: bool, now: int)
      requires Valid()
      modifies this, leds
      ensures Valid() && State() == LoopStep(old(State()), atStart, atFailsafe, now)
      ensures cmdIdCacheIndex == old(cmdIdCacheIndex) && outbox == old(outbox)
      ensures leds[..] == LedTable(currentMode, currentPhase, blinkState)
    {
      if atStart {
        lastMqttConnected := now;
      }
      CheckFailsafe(atFailsafe, now);
      UpdateFsm(now);
      SetLeds();
    }
  }

  /** An `unsigned long` difference of two `millis()` readings is the true elapsed time as long
      as less than 2^32 ms have passed, even when the counter wrapped in between. */
  lemma ElapsedAcrossWrap(start: int, d: int)
    requires 0 <= d < U32
    ensures Elapsed((start + d) % U32, start % U32) == d
  {
    var q1 := (start + d) / U32;
    var q0 := start / U32;
    assert (start + d) % U32 - start % U32 == d - (q1 - q0) * U32;
  }

  /** A parsed document without `cmd_id` is dropped: no ack, no cache entry, no state change. */
  lemma MissingIdDropped(h: FwSnapshot, doc: JObj, now: int)
    requires RingShaped(h) && "cmd_id" !in doc
    ensures CallbackSpec(h, Parsed(doc), now) == h
  {
  }

  /** A payload that fails to parse is only acked, with INVALID_JSON, and only when the partial
      document already holds `cmd_id`; nothing else changes. */
  lemma InvalidJsonOnlyAcks(h: FwSnapshot, partial: JObj, now: int)
    requires RingShaped(h)
    ensures var r := CallbackSpec(h, Unparseable(partial), now);
      r.fw == h.fw && r.cache == h.cache && r.cacheIndex == h.cacheIndex &&
      ("cmd_id" in partial ==> r.outbox == h.outbox + [Ack(IdOf(partial["cmd_id"]), false, Some("INVALID_JSON"), now)]) &&
      ("cmd_id" !in partial ==> r.outbox == h.outbox)
  {
  }

  /** An id found in any slot is acked as a success without being run or cached again. */
  lemma DuplicateAckedWithoutExecution(h: FwSnapshot, doc: JObj, now: int)
    requires RingShaped(h) && "cmd_id" in doc && CacheKey(CmdIdOf(doc)) in h.cache
    ensures CallbackSpec(h, Parsed(doc), now) == h.(outbox := h.outbox + [Ack(CmdIdOf(doc), true, None, now)])
  {
  }

  /** Every first-seen id is cached, whether or not its command succeeded: it lands in the slot
      at the ring index, the index advances modulo 10, no other slot changes, and exactly one
      ack reports the dispatch outcome. */
  lemma FirstSeenAlwaysCached(h: FwSnapshot, doc: JObj, now: int)
    requires RingShaped(h) && "cmd_id" in doc && CacheKey(CmdIdOf(doc)) !in h.cache
    ensures var r := CallbackSpec(h, Parsed(doc), now);
      var d := Execute(h.fw, StrField(doc, "type"), doc, now);
      r.fw == d.fw &&
      r.cache[h.cacheIndex] == CacheKey(CmdIdOf(doc)) && r.cacheIndex == (h.cacheIndex + 1) % CacheSize &&
      (forall k :: 0 <= k < CacheSize && k != h.cacheIndex ==> r.cache[k] == h.cache[k]) &&
      r.outbox == h.outbox + [Ack(CmdIdOf(doc), d.ok, d.err, now)]
  {
  }

  /** Redelivering a command right after it was handled, successfully or not, only acks it as a
      success: the second delivery runs nothing. */
  lemma RedeliveryIsAckedOnly(h: FwSnapshot, msg: Inbound, now: int, later: int)
    requires RingShaped(h) && msg.Parsed? && "cmd_id" in msg.obj
    ensures var once := CallbackSpec(h, msg, now);
      CallbackSpec(once, msg, later) == once.(outbox := once.outbox + [Ack(CmdIdOf(msg.obj), true, None, later)])
  {
    var once := CallbackSpec(h, msg, now);
    var key := CacheKey(CmdIdOf(msg.obj));
    if key !in h.cache {
      assert once.cache[h.cacheIndex] == key;
    }
    assert key in once.cache;
  }

  /** A `cmd_id` that is not a string reads as `nullptr`, which equals an empty slot: while a
      slot is still unused, such a command is acked as a success with a null id and never run. */
  lemma NonStringIdMatchesUnusedSlot(h: FwSnapshot, doc: JObj, now: int)
    requires RingShaped(h) && h.cache[CacheSize - 1] == ""
    requires "cmd_id" in doc && !doc["cmd_id"].JStr?
    ensures CallbackSpec(h, Parsed(doc), now) == h.(outbox := h.outbox + [Ack(None, true, None, now)])
  {
    assert h.cache[CacheSize - 1] in h.cache;
  }

  /** SET_MODE: the four names set the mode, AUTO also restarting the phase timer and BLINK the
      blink timer; the phase never changes; any other value is INVALID_MODE and changes nothing. */
  lemma SetModeOutcomes(s: FwState, doc: JObj, now: int)
    ensures var d := Execute(s, "SET_MODE", doc, now);
      var m := StrField(doc, "mode");
      (d.ok <==> m in {"AUTO", "MANUAL", "BLINK", "OFF"}) &&
      (d.ok ==> d.err.None? && d.fw.phase == s.phase && d.fw.blinkState == s.blinkState) &&
      (m == "AUTO" ==> d.fw.mode == Auto && d.fw.phaseStartTime == now && d.fw.lastBlinkToggle == s.lastBlinkToggle) &&
      (m == "MANUAL" ==> d.fw == s.(mode := Manual)) &&
      (m == "BLINK" ==> d.fw.mode == Blink && d.fw.lastBlinkToggle == now && d.fw.phaseStartTime == s.phaseStartTime) &&
      (m == "OFF" ==> d.fw == s.(mode := Off)) &&
      (!d.ok ==> d.fw == s && d.err == Some("INVALID_MODE"))
  {
  }

  /** SET_PHASE: outside MANUAL it is NOT_MANUAL_MODE; in MANUAL an integer 0..5 becomes the
      phase exactly (the all-red insertion does not survive) and restarts the phase timer; any
      other value, including a float or a string, is INVALID_PHASE. Refusals change nothing. */
  lemma SetPhaseOutcomes(s: FwState, doc: JObj, now: int)
    ensures var d := Execute(s, "SET_PHASE", doc, now);
      var p := IntField(doc, "phase", -1);
      (s.mode != Manual ==> !d.ok && d.err == Some("NOT_MANUAL_MODE") && d.fw == s) &&
      (s.mode == Manual && 0 <= p <= 5 ==> d.ok && d.err.None? && d.fw == s.(phase := p, phaseStartTime := now)) &&
      (s.mode == Manual && !(0 <= p <= 5) ==> !d.ok && d.err == Some("INVALID_PHASE") && d.fw == s)
  {
  }

  /** So in MANUAL a green can be switched straight to the crossing green, and a fractional or
      quoted phase is refused. */
  lemma SetPhaseQuirks(s: FwState, now: int)
    requires s.mode == Manual && s.phase == 0
    ensures Execute(s, "SET_PHASE", map["phase" := JInt(3)], now).fw.phase == 3
    ensures Execute(s, "SET_PHASE", map["phase" := JFloat(3.0)], now) == Decision(s, false, Some("INVALID_PHASE"))
    ensures Execute(s, "SET_PHASE", map["phase" := JStr("3")], now) == Decision(s, false, Some("INVALID_PHASE"))
  {
    assert Get(map["phase" := JInt(3)], "phase") == Some(JInt(3));
    assert Get(map["phase" := JFloat(3.0)], "phase") == Some(JFloat(3.0));
    assert Get(map["phase" := JStr("3")], "phase") == Some(JStr("3"));
  }

  /** EMERGENCY always succeeds with BLINK and the all-red phase 2; the blink timer is not
      restarted. Any other type is UNKNOWN_CMD and changes nothing. */
  lemma EmergencyAndUnknown(s: FwState, ty: string, doc: JObj, now: int)
    ensures Execute(s, "EMERGENCY", doc, now) == Decision(s.(mode := Blink, phase := 2, phaseStartTime := now), true, None)
    ensures ty !in {"SET_MODE", "SET_PHASE", "EMERGENCY"} ==> Execute(s, ty, doc, now) == Decision(s, false, Some("UNKNOWN_CMD"))
  {
  }

  /** A command succeeds exactly when it carries no error. */
  lemma OkIffNoError(s: FwState, ty: string, doc: JObj, now: int)
    ensures Execute(s, ty, doc, now).ok <==> Execute(s, ty, doc, now).err.None?
  {
  }

  /** `getNextPhase` is the successor modulo 6, so six advances come back to the start. */
  lemma NextPhaseIsSuccessor(p: Phase)
    ensures NextPhase(p) == (p + 1) % NumPhases
    ensures NextPhase(NextPhase(NextPhase(NextPhase(NextPhase(NextPhase(p)))))) == p
  {
  }

  /** In AUTO the phase advances, and the phase timer restarts, exactly when the elapsed time
      reaches the phase's duration; nothing else changes. */
  lemma AutoUpdate(s: FwState, now: int)
    requires s.mode == Auto
    ensures var r := UpdateStep(s, now);
      (Elapsed(now, s.phaseStartTime) >= PhaseDuration(s.phase) ==>
        r == s.(phase := (s.phase + 1) % NumPhases, phaseStartTime := now)) &&
      (Elapsed(now, s.phaseStartTime) < PhaseDuration(s.phase) ==> r == s)
  {
    NextPhaseIsSuccessor(s.phase);
  }

  /** In BLINK the blink state flips exactly when 500 ms have passed since the last toggle; the
      phase is untouched. MANUAL and OFF change nothing. */
  lemma NonAutoUpdate(s: FwState, now: int)
    requires s.mode != Auto
    ensures var r := UpdateStep(s, now);
      r.mode == s.mode && r.phase == s.phase &&
      (s.mode == Blink ==> (r.blinkState != s.blinkState <==> Elapsed(now, s.lastBlinkToggle) >= BlinkIntervalMs)) &&
      (s.mode != Blink ==> r == s)
  {
  }

  /** OFF lights nothing; BLINK lights the two yellows when the blink state is on and nothing
      otherwise. */
  lemma LedsOffAndBlink(phase: Phase, blinkState: bool)
    ensures forall i :: 0 <= i < NumLeds ==> !LedTable(Off, phase, blinkState)[i]
    ensures forall i :: 0 <= i < NumLeds ==>
      LedTable(Blink, phase, blinkState)[i] == (blinkState && (i == NsYellow || i == EwYellow))
  {
  }

  /** In every mode and phase the two greens are never lit together, and in AUTO and MANUAL each
      direction shows exactly one lamp, with at least one direction on red. */
  lemma LedsSafe(mode: Mode, phase: Phase, blinkState: bool)
    ensures var l := LedTable(mode, phase, blinkState);
      !(l[NsGreen] && l[EwGreen])
    ensures (mode == Auto || mode == Manual) ==>
      var l := LedTable(mode, phase, blinkState);
      (l[NsRed] || l[EwRed]) &&
      (if l[NsRed] then 1 else 0) + (if l[NsYellow] then 1 else 0) + (if l[NsGreen] then 1 else 0) == 1 &&
      (if l[EwRed] then 1 else 0) + (if l[EwYellow] then 1 else 0) + (if l[EwGreen] then 1 else 0) == 1
  {
  }

  /** In AUTO and MANUAL the lamps follow the phase: NS green only in phase 0, NS yellow only in
      1, EW green only in 3, EW yellow only in 4, and both reds in 2 and 5. */
  lemma LedsFollowPhase(mode: Mode, phase: Phase, blinkState: bool)
    requires mode == Auto || mode == Manual
    ensures var l := LedTable(mode, phase, blinkState);
      (l[NsGreen] <==> phase == 0) && (l[NsYellow] <==> phase == 1) &&
      (l[EwGreen] <==> phase == 3) && (l[EwYellow] <==> phase == 4) &&
      (l[NsRed] && l[EwRed] <==> phase == 2 || phase == 5)
  {
  }

  /** The failsafe switches to AUTO, restarting the phase timer, exactly when the link is down
      for strictly more than 10 s and the mode is not already AUTO; the phase is kept. */
  lemma FailsafeFiresIff(s: FwState, connected: bool, now: int)
    ensures var r := FailsafeStep(s, connected, now);
      var fires := !connected && Elapsed(now, s.lastMqttConnected) > FailsafeTimeoutMs && s.mode != Auto;
      (fires ==> r == s.(mode := Auto, phaseStartTime := now)) && (!fires ==> r == s)
  {
  }

  /** A pass whose failsafe read sees the link up never falls back to AUTO: the mode changes
      only through the command handler. The connection time is stamped exactly when the first
      read sees the link up, so a pass in which `reconnectMQTT` connects leaves the old stamp. */
  lemma ConnectedLoopKeepsMode(s: FwState, atStart: bool, now: int)
    ensures LoopStep(s, atStart, true, now).mode == s.mode
    ensures LoopStep(s, atStart, true, now).lastMqttConnected == if atStart then now else s.lastMqttConnected
  {
  }

  /** A pass that sees the link down at both reads, more than 10 s after the last stamp, ends
      in AUTO whatever the mode was. */
  lemma DisconnectedLoopFallsBack(s: FwState, now: int)
    requires Elapsed(now, s.lastMqttConnected) > FailsafeTimeoutMs
    ensures LoopStep(s, false, false, now).mode == Auto
  {
  }

  /** A pass that sees the link up at its first read cannot fall back, even if the link drops
      before `checkFailsafe`: the stamp it just wrote is 0 ms old. */
  lemma FreshStampBlocksFallback(s: FwState, atFailsafe: bool, now: int)
    ensures LoopStep(s, true, atFailsafe, now).mode == s.mode
  {
  }

  /** A pass in which `reconnectMQTT` connects keeps the mode but not the stamp, so when the
      link is lost again by the next pass, that pass falls back at once if the old stamp is
      more than 10 s old. */
  lemma {:induction false} ReconnectLeavesStaleStamp(s: FwState, now1: int, now2: int)
    requires Elapsed(now2, s.lastMqttConnected) > FailsafeTimeoutMs
    ensures LoopStep(s, false, true, now1).mode == s.mode
    ensures LoopStep(LoopStep(s, false, true, now1), false, false, now2).mode == Auto
  {
    ConnectedLoopKeepsMode(s, false, now1);
    DisconnectedLoopFallsBack(LoopStep(s, false, true, now1), now2);
  }
}
