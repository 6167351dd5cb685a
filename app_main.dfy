/**
 * One iteration of the ESP-IDF publisher task (esp32_idf/main/app_main.c `publisher_task`): the
 * offline fallback to AUTO with its once-per-outage latch, and the state and telemetry
 * schedules. The intervals and the offline timeout are Kconfig values, passed as a `Config`.
 */
module AppMain {
  import opened FsmController
  import opened MqttHandler

  /** `STATE_INTERVAL_MS`, `TELEMETRY_INTERVAL_MS`, `OFFLINE_TIMEOUT_MS` */
  datatype Config = Config(stateIntervalMs: int, telemetryIntervalMs: int, offlineTimeoutMs: int)

  /** What the handler reports about the connection during one iteration. */
  datatype Link = Link(connected: bool, lastActivityMs: int, bootTimeMs: int)

  /** The publisher task's locals, the FSM state and the outbox. */
  datatype PublisherSnapshot =
    PublisherSnapshot(fallbackActive: bool, lastStateMs: int, lastTelemetryMs: int, fsm: FsmState, outbox: seq<Outbound>)

  /** The fallback check: while disconnected, switch to AUTO once the offline time exceeds the
      timeout, unless the latch is already set; being connected clears the latch. */
  function FallbackStep(c: Config, fallbackActive: bool, s: FsmState, link: Link, now: int): (bool, FsmState) {
    if !link.connected then
      if OfflineDuration(false, link.lastActivityMs, now) > c.offlineTimeoutMs && !fallbackActive then
        (true, SetModeStep(s, ModeAuto).state)
      else (fallbackActive, s)
    else (false, s)
  }

  /** One loop iteration at `now`. */
  function PublisherStep(c: Config, p: PublisherSnapshot, link: Link, now: int): PublisherSnapshot {
    var (latch, s) := FallbackStep(c, p.fallbackActive, p.fsm, link, now);
    var stateDue := now - p.lastStateMs >= c.stateIntervalMs;
    var out1 := if stateDue && link.connected then p.outbox + [StateMessage(s, now, link.bootTimeMs)] else p.outbox;
    var telemetryDue := now - p.lastTelemetryMs >= c.telemetryIntervalMs;
    var out2 := if telemetryDue && link.connected then out1 + [TelemetryMessage(now, link.bootTimeMs)] else out1;
    PublisherSnapshot(latch, if stateDue then now else p.lastStateMs,
                      if telemetryDue then now else p.lastTelemetryMs, s, out2)
  }

  class Publisher {
    const handler: Handler
    const config: Config
    var lastStateMs: int
    var lastTelemetryMs: int
    var fallbackActive: bool

    ghost predicate Valid()
      reads this, handler, handler.cache, handler.fsm, handler.fsm.lights
    {
      handler.Valid()
    }

    ghost function Snapshot(): PublisherSnapshot
      reads this, handler, handler.fsm
    {
      PublisherSnapshot(fallbackActive, lastStateMs, lastTelemetryMs, handler.fsm.State(), handler.outbox)
    }

    ghost function CurrentLink(): Link
      reads this, handler
    {
      Link(handler.isConnected, handler.lastActivityMs, handler.bootTimeMs)
    }

    /** The publisher task's start: both timestamps 0, latch clear. */
    constructor (handler: Handler, config: Config)
      requires handler.Valid()
      ensures Valid() && this.handler == handler && this.config == config
      ensures lastStateMs == 0 && lastTelemetryMs == 0 && !fallbackActive
    {
      this.handler := handler;
      this.config := config;
      lastStateMs := 0;
      lastTelemetryMs := 0;
      fallbackActive := false;
    }

    /** One iteration of the `publisher_task` loop (the 100 ms delay is not modelled). */
    method Step(now: int)
      requires Valid()
      modifies this, handler, handler.fsm
      ensures Valid()
      ensures Snapshot() == PublisherStep(config, old(Snapshot()), old(CurrentLink()), now)
      ensures CurrentLink() == old(CurrentLink())
      ensures handler.cache[..] == old(handler.cache[..]) && handler.cacheIdx == old(handler.cacheIdx)
    {
      if !handler.isConnected {
        var offlineMs := handler.OfflineDurationMs(now);
        if offlineMs > config.offlineTimeoutMs && !fallbackActive {
          var _ := handler.fsm.SetMode(ModeAuto);
          fallbackActive := true;
        }
      } else {
        fallbackActive := false;
      }

      if now - lastStateMs >= config.stateIntervalMs {
        handler.PublishState(now);
        lastStateMs := now;
      }

      if now - lastTelemetryMs >= config.telemetryIntervalMs {
        handler.PublishTelemetry(now);
        lastTelemetryMs := now;
      }
    }
  }

  /** The fallback fires (the latch goes from clear to set) exactly when the link is down, the
      offline time strictly exceeds the timeout and the latch was clear; it then selects AUTO,
      and otherwise the FSM is left alone. */
  lemma FallbackFiresIff(c: Config, p: PublisherSnapshot, link: Link, now: int)
    ensures var r := PublisherStep(c, p, link, now);
      (!p.fallbackActive && r.fallbackActive) <==>
        (!link.connected && OfflineDuration(false, link.lastActivityMs, now) > c.offlineTimeoutMs && !p.fallbackActive)
    ensures var r := PublisherStep(c, p, link, now);
      !p.fallbackActive && r.fallbackActive ==> r.fsm == SetModeStep(p.fsm, ModeAuto).state && r.fsm.mode == ModeAuto
    ensures var r := PublisherStep(c, p, link, now);
      !(!p.fallbackActive && r.fallbackActive) ==> r.fsm == p.fsm
  {
  }

  /** Being connected clears the latch; being disconnected never clears it. */
  lemma LatchClearAndHold(c: Config, p: PublisherSnapshot, link: Link, now: int)
    ensures link.connected ==> !PublisherStep(c, p, link, now).fallbackActive
    ensures !link.connected && p.fallbackActive ==> PublisherStep(c, p, link, now).fallbackActive
  {
  }

  /** State is published, and `last_state_ms` moved to `now`, exactly when the interval has
      elapsed; the message is only sent while connected, but the timestamp moves either way. */
  lemma StateSchedule(c: Config, p: PublisherSnapshot, link: Link, now: int)
    ensures var r := PublisherStep(c, p, link, now);
      var due := now - p.lastStateMs >= c.stateIntervalMs;
      r.lastStateMs == (if due then now else p.lastStateMs) &&
      (due && link.connected <==> |r.outbox| > |p.outbox| && r.outbox[|p.outbox|].StateMsg?) &&
      (due && link.connected ==> r.outbox[|p.outbox|] == StateMessage(r.fsm, now, link.bootTimeMs))
  {
  }

  /** Telemetry is published, and `last_telemetry_ms` moved to `now`, exactly when its interval
      has elapsed; it always comes after the state message of the same iteration. */
  lemma TelemetrySchedule(c: Config, p: PublisherSnapshot, link: Link, now: int)
    ensures var r := PublisherStep(c, p, link, now);
      var due := now - p.lastTelemetryMs >= c.telemetryIntervalMs;
      r.lastTelemetryMs == (if due then now else p.lastTelemetryMs) &&
      (due && link.connected <==> |r.outbox| > |p.outbox| && r.outbox[|r.outbox| - 1].Telemetry?) &&
      (due && link.connected ==> r.outbox[|r.outbox| - 1] == TelemetryMessage(now, link.bootTimeMs))
    ensures |PublisherStep(c, p, link, now).outbox| <= |p.outbox| + 2
  {
  }

  /** How many times the fallback fires over a run of iterations at times `nows` during which
      the link stays down. */
  function FiresDuringOutage(c: Config, p: PublisherSnapshot, link: Link, nows: seq<int>): nat
    requires !link.connected
    decreases |nows|
  {
    if nows == [] then 0
    else
      var r := PublisherStep(c, p, link, nows[0]);
      (if !p.fallbackActive && r.fallbackActive then 1 else 0) + FiresDuringOutage(c, r, link, nows[1..])
  }

  /** Once the latch is set it keeps the fallback from firing for the rest of the outage. */
  lemma {:induction false} LatchedNeverFires(c: Config, p: PublisherSnapshot, link: Link, nows: seq<int>)
    requires !link.connected && p.fallbackActive
    ensures FiresDuringOutage(c, p, link, nows) == 0
    decreases |nows|
  {
    if nows != [] {
      LatchClearAndHold(c, p, link, nows[0]);
      LatchedNeverFires(c, PublisherStep(c, p, link, nows[0]), link, nows[1..]);
    }
  }

  /** The fallback fires at most once per outage, and not at all if the latch was already set
      when the outage run began. */
  lemma {:induction false} FallbackAtMostOncePerOutage(c: Config, p: PublisherSnapshot, link: Link, nows: seq<int>)
    requires !link.connected
    ensures FiresDuringOutage(c, p, link, nows) <= (if p.fallbackActive then 0 else 1)
    decreases |nows|
  {
    if p.fallbackActive {
      LatchedNeverFires(c, p, link, nows);
    } else if nows != [] {
      var r := PublisherStep(c, p, link, nows[0]);
      if r.fallbackActive {
        LatchedNeverFires(c, r, link, nows[1..]);
      } else {
        FallbackAtMostOncePerOutage(c, r, link, nows[1..]);
      }
    }
  }
}
