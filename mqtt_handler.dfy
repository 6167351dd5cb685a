/**
 * The ESP-IDF command handler (esp32_idf/main/mqtt_handler.c): command dispatch onto the FSM,
 * the 32-slot idempotency cache of command ids, acknowledgements, the command-topic check, the
 * offline duration and the state and telemetry messages. Published messages are appended to
 * `outbox`; the MQTT client itself is not modelled. C strings are Dafny strings without NUL
 * characters, so `strcmp(a, b) == 0` is `a == b`.
 */
module MqttHandler {
  import opened Wrappers
  import opened Json
  import opened FsmController

  const CacheSize := 32
  const CmdIdMaxLen := 64
  const TopicLen := 128
  const U32 := 0x1_0000_0000

  datatype Outbound =
    | Ack(cmdId: string, ok: bool, err: Option<string>, edgeRecvTsMs: int)
    | Status(online: bool, tsMs: int)
    | StateMsg(mode: string, phase: int, tsMs: int, uptimeS: int)
    | Telemetry(uptimeS: int, tsMs: int)

  /** What the dispatch part of `handle_command` leaves: the FSM state, `ok` and `err`. */
  datatype Decision = Decision(fsm: FsmState, ok: bool, err: Option<string>)

  /** `current_mode`/`current_phase`, the cache slots, `cmd_id_cache_idx` and the outbox. */
  datatype HandlerSnapshot = HandlerSnapshot(fsm: FsmState, cache: seq<string>, cacheIdx: int, outbox: seq<Outbound>)

  /** What `strncpy(slot, id, 63)` followed by a terminating NUL in slot 63 leaves in a slot. */
  function CacheSlot(id: string): (slot: string)
    ensures |slot| < CmdIdMaxLen
    ensures slot <= id
    ensures |id| < CmdIdMaxLen ==> slot == id
  {
    if |id| < CmdIdMaxLen then id else id[..CmdIdMaxLen - 1]
  }

  /** `cache_cmd_id`: write the slot at the ring index and advance the index modulo 32. */
  function CacheInsert(cache: seq<string>, idx: int, id: string): (seq<string>, int)
    requires 0 <= idx < |cache|
  {
    (cache[idx := CacheSlot(id)], (idx + 1) % CacheSize)
  }

  /** The dispatch of `handle_command` for a first-seen command of type `ty`. */
  function Execute(s: FsmState, ty: string, obj: JObj): Decision {
    if ty == "SET_MODE" then
      match Get(obj, "mode")
      case Some(JStr(m)) =>
        var o := SetModeStep(s, StringToMode(Some(m)));
        Decision(o.state, o.ok, if o.ok then None else Some("ERR_INVALID_MODE"))
      case _ => Decision(s, false, Some("ERR_MISSING_MODE"))
    else if ty == "SET_PHASE" then
      match AsNumber(GetOr(obj, "phase", JNull))
      case Some(x) =>
        var o := SetPhaseStep(s, TruncToInt(x));
        Decision(o.state, o.ok, if o.ok then None else Some("ERR_PHASE_REJECTED"))
      case None => Decision(s, false, Some("ERR_MISSING_PHASE"))
    else if ty == "EMERGENCY" then
      Decision(SetPhaseStep(SetModeStep(s, ModeManual).state, 2).state, true, None)
    else Decision(s, false, Some("ERR_UNKNOWN_TYPE"))
  }

  /** The ring's shape: 32 slots and an index into them. */
  predicate RingShaped(h: HandlerSnapshot) {
    |h.cache| == CacheSize && 0 <= h.cacheIdx < CacheSize
  }

  /** `handle_command` on one inbound payload received at `now`. */
  function HandleSpec(h: HandlerSnapshot, msg: Inbound, now: int): (r: HandlerSnapshot)
    requires RingShaped(h)
    ensures RingShaped(r)
  {
    match msg
    case Unparseable(_) => h
    case Parsed(obj) =>
      match (Get(obj, "cmd_id"), Get(obj, "type"))
      case (Some(JStr(id)), Some(JStr(ty))) =>
        if id in h.cache then HandlerSnapshot(h.fsm, h.cache, h.cacheIdx, h.outbox + [Ack(id, true, None, now)])
        else
          var d := Execute(h.fsm, ty, obj);
          var (cache, idx) := if d.ok then CacheInsert(h.cache, h.cacheIdx, id) else (h.cache, h.cacheIdx);
          HandlerSnapshot(d.fsm, cache, idx, h.outbox + [Ack(id, d.ok, d.err, now)])
      case _ => h
  }

  /** `snprintf(buf, 128, ...)` keeps at most 127 characters. */
  function Bounded(s: string): (r: string)
    ensures |r| < TopicLen && r <= s
  {
    if |s| < TopicLen then s else s[..TopicLen - 1]
  }

  /** The command topic built by `mqtt_init`. */
  function TopicCmd(cityId: string, intersectionId: string): string {
    Bounded("city/" + cityId + "/intersection/" + intersectionId + "/cmd")
  }

  /** `strncmp(topic, topic_cmd, topic_len) == 0` for a received topic of `topic_len` characters
      that is not NUL-terminated: the comparison stops after the received characters, so any
      prefix of the command topic is accepted. */
  predicate TopicMatches(topic: string, topicCmd: string) {
    |topic| <= |topicCmd| && topic == topicCmd[..|topic|]
  }

  /** `get_uptime_s`: C's truncating division of the elapsed milliseconds by 1000. */
  function UptimeS(now: int, bootTimeMs: int): int {
    TruncToInt((now - bootTimeMs) as real / 1000.0)
  }

  /** The time since the last activity as `mqtt_get_offline_duration_ms` reports it: 0 while
      connected, otherwise the 64-bit difference cast to `uint32_t` (reduced modulo 2^32). */
  function OfflineDuration(connected: bool, lastActivityMs: int, now: int): int {
    if connected then 0 else (now - lastActivityMs) % U32
  }

  /** The message `mqtt_publish_state` builds for FSM state `s`. */
  function StateMessage(s: FsmState, now: int, bootTimeMs: int): Outbound {
    StateMsg(ModeToString(s.mode), s.phase, now, UptimeS(now, bootTimeMs))
  }

  /** The message `mqtt_publish_telemetry` builds (RSSI and free heap are not modelled). */
  function TelemetryMessage(now: int, bootTimeMs: int): Outbound {
    Telemetry(UptimeS(now, bootTimeMs), now)
  }

  class Handler {
    const fsm: Fsm
    /** `cmd_id_cache`, one string per slot. */
    const cache: array<string>
    /** `cmd_id_cache_idx` */
    var cacheIdx: int
    var isConnected: bool
    var lastActivityMs: int
    const bootTimeMs: int
    const topicCmd: string
    var outbox: seq<Outbound>

    ghost predicate Valid()
      reads this, cache, fsm, fsm.lights
    {
      fsm.Valid() && cache.Length == CacheSize && 0 <= cacheIdx < CacheSize &&
      forall k :: 0 <= k < CacheSize ==> |cache[k]| < CmdIdMaxLen
    }

    ghost function Snapshot(): HandlerSnapshot
      reads this, cache, fsm
    {
      HandlerSnapshot(fsm.State(), cache[..], cacheIdx, outbox)
    }

    /** `mqtt_init` at time `now`: topics built, cache cleared to empty strings, not connected. */
    constructor Init(fsm: Fsm, cityId: string, intersectionId: string, now: int)
      requires fsm.Valid()
      ensures Valid() && fresh(cache) && this.fsm == fsm
      ensures Snapshot() == HandlerSnapshot(fsm.State(), seq(CacheSize, _ => ""), 0, [])
      ensures !isConnected && lastActivityMs == 0 && bootTimeMs == now
      ensures topicCmd == TopicCmd(cityId, intersectionId)
    {
      this.fsm := fsm;
      bootTimeMs := now;
      topicCmd := TopicCmd(cityId, intersectionId);
      cache := new string[CacheSize](_ => "");
      cacheIdx := 0;
      isConnected := false;
      lastActivityMs := 0;
      outbox := [];
    }

    /** `is_cmd_id_cached`: a linear search over all 32 slots. */
    method IsCached(cmdId: string) returns (found: bool)
      requires Valid()
      ensures found <==> cmdId in cache[..]
    {
      for i := 0 to CacheSize
        invariant cmdId !in cache[..i]
      {
        if cache[i] == cmdId {
          assert cache[..][i] == cmdId;
          return true;
        }
        assert cache[..i + 1] == cache[..i] + [cache[i]];
      }
      assert cache[..CacheSize] == cache[..];
      return false;
    }

    /** `cache_cmd_id` */
    method CacheCmdId(cmdId: string)
      requires Valid()
      modifies this, cache
      ensures Valid()
      ensures (cache[..], cacheIdx) == CacheInsert(old(cache[..]), old(cacheIdx), cmdId)
      ensures outbox == old(outbox) && isConnected == old(isConnected) && lastActivityMs == old(lastActivityMs)
    {
      cache[cacheIdx] := CacheSlot(cmdId);
      cacheIdx := (cacheIdx + 1) % CacheSize;
    }

    /** `publish_ack`, with `edge_recv_ts_ms` taken at `now`. */
    method PublishAck(cmdId: string, ok: bool, err: Option<string>, now: int)
      modifies this`outbox
      ensures outbox == old(outbox) + [Ack(cmdId, ok, err, now)]
    {
      outbox := outbox + [Ack(cmdId, ok, err, now)];
    }

    /** `handle_command` */
    method HandleCommand(msg: Inbound, now: int)
      requires Valid()
      modifies this, cache, fsm
      ensures Valid()
      ensures Snapshot() == HandleSpec(old(Snapshot()), msg, now)
      ensures fsm.lastChange == old(fsm.lastChange)
      ensures isConnected == old(isConnected) && lastActivityMs == old(lastActivityMs)
    {
      if msg.Unparseable? {
        return;
      }
      var root := msg.obj;
      var cmdIdJ := Get(root, "cmd_id");
      var typeJ := Get(root, "type");
      if !(cmdIdJ.Some? && cmdIdJ.value.JStr?) || !(typeJ.Some? && typeJ.value.JStr?) {
        return;
      }
      var cmdId := cmdIdJ.value.s;
      var ty := typeJ.value.s;

      var duplicate := IsCached(cmdId);
      if duplicate {
        PublishAck(cmdId, true, None, now);
        return;
      }

      var ok := false;
      var err: Option<string> := None;
      if ty == "SET_MODE" {
        var modeJ := Get(root, "mode");
        if modeJ.Some? && modeJ.value.JStr? {
          var mode := StringToMode(Some(modeJ.value.s));
          ok := fsm.SetMode(mode);
          if !ok {
            err := Some("ERR_INVALID_MODE");
          }
        } else {
          err := Some("ERR_MISSING_MODE");
        }
      } else if ty == "SET_PHASE" {
        var phaseJ := GetOr(root, "phase", JNull);
        if AsNumber(phaseJ).Some? {
          var phase := TruncToInt(AsNumber(phaseJ).value);
          ok := fsm.SetPhase(phase);
          if !ok {
            err := Some("ERR_PHASE_REJECTED");
          }
        } else {
          err := Some("ERR_MISSING_PHASE");
        }
      } else if ty == "EMERGENCY" {
        var _ := fsm.SetMode(ModeManual);
        var _ := fsm.SetPhase(2);
        ok := true;
      } else {
        err := Some("ERR_UNKNOWN_TYPE");
      }

      if ok {
        CacheCmdId(cmdId);
      }
      PublishAck(cmdId, ok, err, now);
    }

    /** `MQTT_EVENT_CONNECTED` at `now`: connected, activity stamped, online status published. */
    method OnConnected(now: int)
      requires Valid()
      modifies this
      ensures Valid() && Snapshot().(outbox := old(outbox)) == old(Snapshot())
      ensures isConnected && lastActivityMs == now
      ensures outbox == old(outbox) + [Status(true, now)]
    {
      isConnected := true;
      lastActivityMs := now;
      outbox := outbox + [Status(true, now)];
    }

    /** `MQTT_EVENT_DISCONNECTED` */
    method OnDisconnected()
      requires Valid()
      modifies this
      ensures Valid() && Snapshot() == old(Snapshot())
      ensures !isConnected && lastActivityMs == old(lastActivityMs)
    {
      isConnected := false;
    }

    /** `MQTT_EVENT_DATA` at `now`: any data counts as activity; a payload on (a prefix of) the
        command topic is handled as a command. */
    method OnData(topic: string, msg: Inbound, now: int)
      requires Valid()
      modifies this, cache, fsm
      ensures Valid()
      ensures lastActivityMs == now && isConnected == old(isConnected)
      ensures TopicMatches(topic, topicCmd) ==> Snapshot() == HandleSpec(old(Snapshot()), msg, now)
      ensures !TopicMatches(topic, topicCmd) ==> Snapshot() == old(Snapshot())
      ensures fsm.lastChange == old(fsm.lastChange)
    {
      lastActivityMs := now;
      if |topic| <= |topicCmd| && topic == topicCmd[..|topic|] {
        HandleCommand(msg, now);
      }
    }

    /** `mqtt_get_offline_duration_ms`: 0 while connected, otherwise the time since the last
        activity cast to `uint32_t`. */
    method OfflineDurationMs(now: int) returns (d: int)
      ensures d == OfflineDuration(isConnected, lastActivityMs, now)
    {
      if isConnected {
        return 0;
      }
      d := (now - lastActivityMs) % U32;
    }

    /** `mqtt_publish_state`: nothing while disconnected. */
    method PublishState(now: int)
      requires Valid()
      modifies this`outbox
      ensures isConnected ==> outbox == old(outbox) + [StateMessage(fsm.State(), now, bootTimeMs)]
      ensures !isConnected ==> outbox == old(outbox)
    {
      if !isConnected {
        return;
      }
      outbox := outbox + [StateMessage(fsm.State(), now, bootTimeMs)];
    }

    /** `mqtt_publish_telemetry`: nothing while disconnected (RSSI and free heap are not
        modelled). */
    method PublishTelemetry(now: int)
      requires Valid()
      modifies this`outbox
      ensures isConnected ==> outbox == old(outbox) + [TelemetryMessage(now, bootTimeMs)]
      ensures !isConnected ==> outbox == old(outbox)
    {
      if !isConnected {
        return;
      }
      outbox := outbox + [TelemetryMessage(now, bootTimeMs)];
    }
  }

  predicate SlotsShort(cache: seq<string>) {
    forall k :: 0 <= k < |cache| ==> |cache[k]| < CmdIdMaxLen
  }

  /** A well-formed command: a parsed object with string `cmd_id` and `type`. */
  predicate WellFormed(msg: Inbound) {
    msg.Parsed? && Get(msg.obj, "cmd_id").Some? && Get(msg.obj, "cmd_id").value.JStr? &&
    Get(msg.obj, "type").Some? && Get(msg.obj, "type").value.JStr?
  }

  function CmdId(msg: Inbound): string
    requires WellFormed(msg)
  {
    msg.obj["cmd_id"].s
  }

  function CmdType(msg: Inbound): string
    requires WellFormed(msg)
  {
    msg.obj["type"].s
  }

  /** Unparseable JSON, or a `cmd_id` or `type` that is missing or not a string, is dropped:
      no ack, no cache entry, no state change. */
  lemma RejectedInputIgnored(h: HandlerSnapshot, msg: Inbound, now: int)
    requires RingShaped(h)
    requires !WellFormed(msg)
    ensures HandleSpec(h, msg, now) == h
  {
  }

  /** A command whose id is in any slot is acknowledged as a success without running it. */
  lemma DuplicateAckedWithoutExecution(h: HandlerSnapshot, msg: Inbound, now: int)
    requires RingShaped(h)
    requires WellFormed(msg) && CmdId(msg) in h.cache
    ensures HandleSpec(h, msg, now) == h.(outbox := h.outbox + [Ack(CmdId(msg), true, None, now)])
  {
  }

  /** The cache starts as 32 empty strings, so before 32 commands have succeeded a command with
      the empty id is taken for a duplicate and never runs. */
  lemma EmptyIdMatchesUnusedSlot(h: HandlerSnapshot, msg: Inbound, now: int)
    requires RingShaped(h) && h.cache[CacheSize - 1] == ""
    requires WellFormed(msg) && CmdId(msg) == ""
    ensures HandleSpec(h, msg, now).fsm == h.fsm
    ensures HandleSpec(h, msg, now).outbox == h.outbox + [Ack("", true, None, now)]
  {
    assert h.cache[CacheSize - 1] in h.cache;
  }

  /** Only successes are cached: a failed first-seen command leaves the FSM and the cache as they
      were and only adds its negative ack, so a redelivery runs it again. */
  lemma FailureOnlyAcks(h: HandlerSnapshot, msg: Inbound, now: int)
    requires RingShaped(h)
    requires WellFormed(msg) && CmdId(msg) !in h.cache
    requires !Execute(h.fsm, CmdType(msg), msg.obj).ok
    ensures var r := HandleSpec(h, msg, now);
      r.fsm == h.fsm && r.cache == h.cache && r.cacheIdx == h.cacheIdx &&
      r.outbox == h.outbox + [Ack(CmdId(msg), false, Execute(h.fsm, CmdType(msg), msg.obj).err, now)] &&
      CmdId(msg) !in r.cache
  {
    FailedExecuteChangesNothing(h.fsm, CmdType(msg), msg.obj);
  }

  /** A failing dispatch never moves the FSM. */
  lemma FailedExecuteChangesNothing(s: FsmState, ty: string, obj: JObj)
    requires !Execute(s, ty, obj).ok
    ensures Execute(s, ty, obj).fsm == s
    ensures Execute(s, ty, obj).err.Some?
  {
  }

  /** A successful first-seen command is cached at the ring index: the slot holds its id cut to
      63 characters, the index advances modulo 32, and no other slot changes. */
  lemma SuccessIsCached(h: HandlerSnapshot, msg: Inbound, now: int)
    requires RingShaped(h)
    requires WellFormed(msg) && CmdId(msg) !in h.cache
    requires Execute(h.fsm, CmdType(msg), msg.obj).ok
    ensures var r := HandleSpec(h, msg, now);
      r.cache[h.cacheIdx] == CacheSlot(CmdId(msg)) && r.cacheIdx == (h.cacheIdx + 1) % CacheSize &&
      (forall k :: 0 <= k < CacheSize && k != h.cacheIdx ==> r.cache[k] == h.cache[k]) &&
      r.outbox == h.outbox + [Ack(CmdId(msg), true, None, now)]
  {
  }

  /** Writing a slot keeps every slot shorter than 64 characters. */
  lemma CacheInsertKeepsSlotsShort(cache: seq<string>, idx: int, id: string)
    requires 0 <= idx < |cache| && SlotsShort(cache)
    ensures SlotsShort(CacheInsert(cache, idx, id).0)
  {
  }

  /** An id of 64 or more characters is never found, because the slots hold at most 63. */
  lemma LongIdNeverFound(cache: seq<string>, id: string)
    requires SlotsShort(cache) && |id| >= CmdIdMaxLen
    ensures id !in cache
  {
  }

  /** So a long id that succeeded is executed again when redelivered instead of being acked as
      a duplicate. */
  lemma LongIdReexecuted(h: HandlerSnapshot, msg: Inbound, now: int, later: int)
    requires RingShaped(h) && SlotsShort(h.cache)
    requires WellFormed(msg) && |CmdId(msg)| >= CmdIdMaxLen
    ensures var once := HandleSpec(h, msg, now);
      var d := Execute(once.fsm, CmdType(msg), msg.obj);
      HandleSpec(once, msg, later).fsm == d.fsm &&
      HandleSpec(once, msg, later).outbox == once.outbox + [Ack(CmdId(msg), d.ok, d.err, later)]
  {
    LongIdNeverFound(h.cache, CmdId(msg));
    var d0 := Execute(h.fsm, CmdType(msg), msg.obj);
    if d0.ok {
      CacheInsertKeepsSlotsShort(h.cache, h.cacheIdx, CmdId(msg));
    }
    LongIdNeverFound(HandleSpec(h, msg, now).cache, CmdId(msg));
  }

  /** SET_MODE with a string mode always succeeds, because `fsm_string_to_mode` maps unknown
      names to AUTO: ERR_INVALID_MODE cannot occur. A non-string mode is ERR_MISSING_MODE. */
  lemma SetModeOutcomes(s: FsmState, obj: JObj)
    ensures var d := Execute(s, "SET_MODE", obj);
      match Get(obj, "mode")
      case Some(JStr(m)) => d.ok && d.err.None? && d.fsm.mode == StringToMode(Some(m)) &&
        (m !in {"AUTO", "MANUAL", "BLINK", "OFF"} ==> d.fsm.mode == ModeAuto)
      case _ => !d.ok && d.err == Some("ERR_MISSING_MODE") && d.fsm == s
  {
  }

  /** SET_PHASE: a non-number is ERR_MISSING_PHASE; a number is cut toward zero and handed to
      `fsm_set_phase`, whose refusal is ERR_PHASE_REJECTED. */
  lemma SetPhaseOutcomes(s: FsmState, obj: JObj)
    ensures var d := Execute(s, "SET_PHASE", obj);
      match AsNumber(GetOr(obj, "phase", JNull))
      case Some(x) =>
        var o := SetPhaseStep(s, TruncToInt(x));
        d.ok == o.ok && d.fsm == o.state && (d.ok <==> d.err.None?) &&
        (!d.ok ==> d.err == Some("ERR_PHASE_REJECTED"))
      case None => !d.ok && d.err == Some("ERR_MISSING_PHASE") && d.fsm == s
  {
  }

  /** A fractional phase is truncated: 2.9 in MANUAL selects phase 2, and -0.5 selects phase 0. */
  lemma FractionalPhaseTruncated()
    ensures Execute(FsmState(ModeManual, 4), "SET_PHASE", map["phase" := JFloat(2.9)]) ==
      Decision(FsmState(ModeManual, 2), true, None)
    ensures Execute(FsmState(ModeManual, 4), "SET_PHASE", map["phase" := JFloat(-0.5)]) ==
      Decision(FsmState(ModeManual, 0), true, None)
  {
    assert Get(map["phase" := JFloat(2.9)], "phase") == Some(JFloat(2.9));
    assert Get(map["phase" := JFloat(-0.5)], "phase") == Some(JFloat(-0.5));
    assert TruncToInt(2.9) == 2;
    assert TruncToInt(-0.5) == 0;
  }

  /** EMERGENCY always succeeds and leaves MANUAL mode showing phase 2 (all red). */
  lemma EmergencyIsManualAllRed(s: FsmState, obj: JObj)
    ensures Execute(s, "EMERGENCY", obj) == Decision(FsmState(ModeManual, 2), true, None)
  {
  }

  /** Any other type is ERR_UNKNOWN_TYPE and changes nothing. */
  lemma UnknownTypeRejected(s: FsmState, ty: string, obj: JObj)
    requires ty !in {"SET_MODE", "SET_PHASE", "EMERGENCY"}
    ensures Execute(s, ty, obj) == Decision(s, false, Some("ERR_UNKNOWN_TYPE"))
  {
  }

  /** Every handled command produces exactly one ack, whose id is the command's id. */
  lemma OneAckPerCommand(h: HandlerSnapshot, msg: Inbound, now: int)
    requires RingShaped(h)
    requires WellFormed(msg)
    ensures var r := HandleSpec(h, msg, now);
      |r.outbox| == |h.outbox| + 1 && r.outbox[..|h.outbox|] == h.outbox &&
      r.outbox[|h.outbox|].Ack? && r.outbox[|h.outbox|].cmdId == CmdId(msg) &&
      (r.outbox[|h.outbox|].ok <==> r.outbox[|h.outbox|].err.None?)
  {
    var id := CmdId(msg);
    if id !in h.cache && !Execute(h.fsm, CmdType(msg), msg.obj).ok {
      FailedExecuteChangesNothing(h.fsm, CmdType(msg), msg.obj);
    }
  }

  /** The command topic itself is accepted, and so is every prefix of it, down to the empty
      topic; a longer topic is not. */
  lemma TopicPrefixAccepted(topicCmd: string, topic: string)
    ensures TopicMatches(topicCmd, topicCmd)
    ensures TopicMatches("", topicCmd)
    ensures |topic| > |topicCmd| ==> !TopicMatches(topic, topicCmd)
    ensures TopicMatches(topic, topicCmd) <==> topic <= topicCmd
  {
  }

  /** The offline duration is 0 while connected; while disconnected it is a `uint32_t`, equal to
      the elapsed time whenever that fits in 32 bits and congruent to it modulo 2^32 otherwise. */
  lemma OfflineDurationFacts(connected: bool, lastActivityMs: int, now: int)
    ensures var d := OfflineDuration(connected, lastActivityMs, now);
      0 <= d < U32 && (connected ==> d == 0) &&
      (!connected && 0 <= now - lastActivityMs < U32 ==> d == now - lastActivityMs) &&
      (!connected ==> (d - (now - lastActivityMs)) % U32 == 0)
  {
  }

  /** Uptime counts whole seconds since `mqtt_init`. */
  lemma UptimeWholeSeconds(now: int, bootTimeMs: int)
    requires now >= bootTimeMs
    ensures 1000 * UptimeS(now, bootTimeMs) <= now - bootTimeMs < 1000 * (UptimeS(now, bootTimeMs) + 1)
  {
  }
}
