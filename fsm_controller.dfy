/**
 * The ESP-IDF traffic-light state machine (esp32_idf/main/fsm_controller.c): the operating mode,
 * the current phase, the phase-to-lamp table and one iteration of the FSM task. Modes are the
 * enumeration codes of `traffic_mode_t` (AUTO = 0, MANUAL = 1, BLINK = 2, OFF = 3), kept as
 * integers because `fsm_set_mode` range-checks its argument. Phase durations come from Kconfig
 * and are parameters here. Time is the tick count in milliseconds, passed as `now`.
 */
module FsmController {
  import opened Wrappers
  import opened GpioLights

  const ModeAuto := 0
  const ModeManual := 1
  const ModeBlink := 2
  const ModeOff := 3

  predicate ValidMode(m: int) {
    ModeAuto <= m <= ModeOff
  }

  /** `CONFIG_PHASE_GREEN_MS`, `CONFIG_PHASE_YELLOW_MS`, `CONFIG_PHASE_ALL_RED_MS` */
  datatype Timing = Timing(greenMs: int, yellowMs: int, allRedMs: int)

  /** `PHASE_DURATIONS[phase]` */
  function PhaseDuration(t: Timing, phase: int): int
    requires 0 <= phase < 6
  {
    [t.greenMs, t.yellowMs, t.allRedMs, t.greenMs, t.yellowMs, t.allRedMs][phase]
  }

  /** `current_mode` and `current_phase` */
  datatype FsmState = FsmState(mode: int, phase: int)

  /** The state after a setter and the setter's boolean result. */
  datatype Outcome = Outcome(state: FsmState, ok: bool)

  /** `fsm_set_mode(mode)` */
  function SetModeStep(s: FsmState, mode: int): Outcome {
    if mode < ModeAuto || mode > ModeOff then Outcome(s, false)
    else if mode == ModeAuto && s.mode != ModeAuto then Outcome(FsmState(mode, 0), true)
    else Outcome(s.(mode := mode), true)
  }

  /** `fsm_set_phase(phase)` */
  function SetPhaseStep(s: FsmState, phase: int): Outcome {
    if phase < 0 || phase > 5 then Outcome(s, false)
    else if s.mode != ModeManual then Outcome(s, false)
    else Outcome(s.(phase := phase), true)
  }

  /** `fsm_mode_to_string` */
  function ModeToString(mode: int): string {
    if mode == ModeAuto then "AUTO"
    else if mode == ModeManual then "MANUAL"
    else if mode == ModeBlink then "BLINK"
    else if mode == ModeOff then "OFF"
    else "UNKNOWN"
  }

  /** `fsm_string_to_mode`; `None` stands for NULL. */
  function StringToMode(str: Option<string>): (m: int)
    ensures ValidMode(m)
  {
    match str
    case None => ModeAuto
    case Some(s) =>
      if s == "AUTO" then ModeAuto
      else if s == "MANUAL" then ModeManual
      else if s == "BLINK" then ModeBlink
      else if s == "OFF" then ModeOff
      else ModeAuto
  }

  /** Pin levels after `apply_phase(phase)`, call by call. */
  function PhasePins(levels: Levels, phase: int): Levels {
    if phase == 0 then WithEw(WithNs(levels, false, false, true), true, false, false)
    else if phase == 1 then WithEw(WithNs(levels, false, true, false), true, false, false)
    else if phase == 2 || phase == 5 then WithAllRed(levels)
    else if phase == 3 then WithEw(WithNs(levels, true, false, false), false, false, true)
    else if phase == 4 then WithEw(WithNs(levels, true, false, false), false, true, false)
    else WithAllRed(levels)
  }

  /** Reference lamp table: whether lamp `colour` (0 red, 1 yellow, 2 green) of the north-south
      (`ns`) or east-west approaches is lit in `phase`. Out-of-range phases show red. */
  predicate LampLit(phase: int, ns: bool, colour: int) {
    if phase == 0 then (if ns then colour == 2 else colour == 0)
    else if phase == 1 then (if ns then colour == 1 else colour == 0)
    else if phase == 3 then (if ns then colour == 0 else colour == 2)
    else if phase == 4 then (if ns then colour == 0 else colour == 1)
    else colour == 0
  }

  function PhaseTable(phase: int): Levels {
    seq(NumPins, i => LampLit(phase, Owner(i) < 2, i % 3))
  }

  /** One value per field the FSM task and the lamp driver keep. */
  datatype FsmSnapshot = FsmSnapshot(state: FsmState, lastChange: int, yellowState: bool, levels: Levels)

  /** The AUTO branch of `fsm_task`: advance when the phase's duration has elapsed. */
  function AutoAdvance(t: Timing, s: FsmState, lastChange: int, now: int): (FsmState, int)
    requires 0 <= s.phase < 6
  {
    if now - lastChange >= PhaseDuration(t, s.phase) then (s.(phase := (s.phase + 1) % 6), now)
    else (s, lastChange)
  }

  /** One iteration of the `fsm_task` loop at time `now`. */
  function Tick(t: Timing, s: FsmSnapshot, now: int): FsmSnapshot
    requires 0 <= s.state.phase < 6
  {
    if s.state.mode == ModeAuto then
      var (st, lc) := AutoAdvance(t, s.state, s.lastChange, now);
      FsmSnapshot(st, lc, s.yellowState, PhasePins(s.levels, st.phase))
    else if s.state.mode == ModeManual then
      FsmSnapshot(s.state, s.lastChange, s.yellowState, PhasePins(s.levels, s.state.phase))
    else if s.state.mode == ModeBlink then
      FsmSnapshot(s.state, s.lastChange, !s.yellowState, YellowOnly(!s.yellowState))
    else if s.state.mode == ModeOff then
      FsmSnapshot(s.state, s.lastChange, s.yellowState, Dark())
    else s
  }

  class Fsm {
    var currentMode: int
    var currentPhase: int
    /** The FSM task's local `last_change`. */
    var lastChange: int
    const timing: Timing
    const lights: Lights

    ghost predicate Valid()
      reads this, lights
    {
      lights.Valid() && ValidMode(currentMode) && 0 <= currentPhase < 6
    }

    function State(): FsmState
      reads this
    {
      FsmState(currentMode, currentPhase)
    }

    ghost function Snapshot(): FsmSnapshot
      reads this, lights, lights.pins
      requires Valid()
    {
      FsmSnapshot(State(), lastChange, lights.yellowState, lights.pins[..])
    }

    /** `fsm_init` followed by `fsm_start`: the lamps are initialised and set all red, the mode
        is AUTO with phase 0, and the FSM task's timer starts at `now`. */
    constructor Init(timing: Timing, now: int)
      ensures Valid() && fresh(lights) && fresh(lights.pins)
      ensures State() == FsmState(ModeAuto, 0) && lastChange == now && this.timing == timing
      ensures lights.pins[..] == WithAllRed(Dark()) && !lights.yellowState
    {
      this.timing := timing;
      currentMode := ModeAuto;
      currentPhase := 0;
      lastChange := now;
      var l := new Lights();
      l.AllRed();
      lights := l;
    }

    /** `fsm_set_mode` */
    method SetMode(mode: int) returns (ok: bool)
      requires Valid()
      modifies this
      ensures Valid()
      ensures Outcome(State(), ok) == SetModeStep(old(State()), mode)
      ensures lastChange == old(lastChange)
    {
      if mode < ModeAuto || mode > ModeOff {
        return false;
      }
      var oldMode := currentMode;
      currentMode := mode;
      if mode == ModeAuto && oldMode != ModeAuto {
        currentPhase := 0;
      }
      return true;
    }

    /** `fsm_set_phase` */
    method SetPhase(phase: int) returns (ok: bool)
      requires Valid()
      modifies this
      ensures Valid()
      ensures Outcome(State(), ok) == SetPhaseStep(old(State()), phase)
      ensures lastChange == old(lastChange)
    {
      if phase < 0 || phase > 5 {
        return false;
      }
      if currentMode != ModeManual {
        return false;
      }
      currentPhase := phase;
      return true;
    }

    /** `apply_phase` */
    method ApplyPhase(phase: int)
      requires Valid()
      modifies lights.pins
      ensures lights.pins[..] == PhasePins(old(lights.pins[..]), phase)
    {
      if phase == 0 {
        lights.SetNs(false, false, true);
        lights.SetEw(true, false, false);
      } else if phase == 1 {
        lights.SetNs(false, true, false);
        lights.SetEw(true, false, false);
      } else if phase == 2 || phase == 5 {
        lights.AllRed();
      } else if phase == 3 {
        lights.SetNs(true, false, false);
        lights.SetEw(false, false, true);
      } else if phase == 4 {
        lights.SetNs(true, false, false);
        lights.SetEw(false, true, false);
      } else {
        lights.AllRed();
      }
    }

    /** One iteration of the `fsm_task` loop (the delays are not modelled). */
    method TaskStep(now: int)
      requires Valid()
      modifies this, lights, lights.pins
      ensures Valid()
      ensures Snapshot() == Tick(timing, old(Snapshot()), now)
    {
      var mode := currentMode;
      var phase := currentPhase;
      if mode == ModeAuto {
        var durationMs := PhaseDuration(timing, phase);
        if now - lastChange >= durationMs {
          currentPhase := (currentPhase + 1) % 6;
          phase := currentPhase;
          lastChange := now;
        }
        ApplyPhase(phase);
      } else if mode == ModeManual {
        ApplyPhase(phase);
      } else if mode == ModeBlink {
        lights.ToggleYellow();
      } else {
        lights.AllOff();
      }
    }
  }

  /** An out-of-range mode is refused and nothing changes. */
  lemma SetModeInvalid(s: FsmState, mode: int)
    requires !ValidMode(mode)
    ensures SetModeStep(s, mode) == Outcome(s, false)
  {
  }

  /** A valid mode is stored and accepted; the phase goes back to 0 exactly when AUTO is entered
      from another mode, and is kept otherwise. */
  lemma SetModeValid(s: FsmState, mode: int)
    requires ValidMode(mode)
    ensures var o := SetModeStep(s, mode);
      o.ok && o.state.mode == mode &&
      (o.state.phase == 0 <== mode == ModeAuto && s.mode != ModeAuto) &&
      (!(mode == ModeAuto && s.mode != ModeAuto) ==> o.state.phase == s.phase)
  {
  }

  /** A phase outside 0..5 is refused in every mode, before the mode is looked at. */
  lemma SetPhaseOutOfRange(s: FsmState, phase: int)
    requires phase < 0 || phase > 5
    ensures SetPhaseStep(s, phase) == Outcome(s, false)
  {
  }

  /** A phase in range is accepted iff the mode is MANUAL, and then it becomes the phase;
      otherwise nothing changes. */
  lemma SetPhaseInRange(s: FsmState, phase: int)
    requires 0 <= phase <= 5
    ensures SetPhaseStep(s, phase).ok <==> s.mode == ModeManual
    ensures SetPhaseStep(s, phase).ok ==> SetPhaseStep(s, phase).state == FsmState(ModeManual, phase)
    ensures !SetPhaseStep(s, phase).ok ==> SetPhaseStep(s, phase).state == s
  {
  }

  /** The four names map to their modes and every other string, and NULL, maps to AUTO. */
  lemma StringToModeNames(s: string)
    ensures StringToMode(Some(s)) == ModeManual <==> s == "MANUAL"
    ensures StringToMode(Some(s)) == ModeBlink <==> s == "BLINK"
    ensures StringToMode(Some(s)) == ModeOff <==> s == "OFF"
    ensures StringToMode(Some(s)) == ModeAuto <==> s !in {"MANUAL", "BLINK", "OFF"}
    ensures StringToMode(None) == ModeAuto
  {
  }

  /** Naming a valid mode and parsing the name gives the mode back. */
  lemma ModeStringRoundTrip(m: int)
    requires ValidMode(m)
    ensures StringToMode(Some(ModeToString(m))) == m
    ensures ModeToString(m) != "UNKNOWN"
  {
  }

  /** `apply_phase` rewrites all twelve pins: its result is the reference table, whatever the
      lamps showed before. */
  lemma PhasePinsIsTable(levels: Levels, phase: int)
    ensures PhasePins(levels, phase) == PhaseTable(phase)
  {
  }

  /** No phase, in range or not, lights a north-south green together with an east-west green. */
  lemma PhaseTableNoConflictingGreens(phase: int)
    ensures forall a, b :: 0 <= a < 2 <= b < 4 ==> !(PhaseTable(phase)[GreenPin(a)] && PhaseTable(phase)[GreenPin(b)])
  {
  }

  /** Phases outside 0..5 fall back to all red. */
  lemma OutOfRangePhaseIsAllRed(levels: Levels, phase: int)
    requires phase < 0 || phase > 5
    ensures PhasePins(levels, phase) == WithAllRed(levels)
    ensures forall i :: 0 <= i < NumPins ==> PhasePins(levels, phase)[i] == (i % 3 == 0)
  {
    AllRedShape(levels);
  }

  /** In AUTO the phase advances to `(phase + 1) % 6` exactly when its duration has elapsed,
      and stays in 0..5; the timer restarts at `now` when it advances. */
  lemma AutoAdvanceModular(t: Timing, s: FsmState, lastChange: int, now: int)
    requires 0 <= s.phase < 6
    ensures var (st, lc) := AutoAdvance(t, s, lastChange, now);
      0 <= st.phase < 6 && st.mode == s.mode &&
      (now - lastChange >= PhaseDuration(t, s.phase) ==> st.phase == (s.phase + 1) % 6 && lc == now) &&
      (now - lastChange < PhaseDuration(t, s.phase) ==> st == s && lc == lastChange)
  {
  }

  /** Safety of the whole task: after any iteration, in any mode, no north-south green is lit
      together with an east-west green. */
  lemma TickNoConflictingGreens(t: Timing, s: FsmSnapshot, now: int)
    requires ValidMode(s.state.mode) && 0 <= s.state.phase < 6
    ensures forall a, b :: 0 <= a < 2 <= b < 4 ==>
      !(Tick(t, s, now).levels[GreenPin(a)] && Tick(t, s, now).levels[GreenPin(b)])
  {
    var st := AutoAdvance(t, s.state, s.lastChange, now).0;
    PhasePinsIsTable(s.levels, st.phase);
    PhaseTableNoConflictingGreens(st.phase);
    PhasePinsIsTable(s.levels, s.state.phase);
    PhaseTableNoConflictingGreens(s.state.phase);
  }

  /** MANUAL holds the phase, BLINK flashes the yellows only, OFF darkens every lamp. */
  lemma TickNonAutoModes(t: Timing, s: FsmSnapshot, now: int)
    requires 0 <= s.state.phase < 6 && s.state.mode != ModeAuto
    ensures Tick(t, s, now).state == s.state && Tick(t, s, now).lastChange == s.lastChange
    ensures s.state.mode == ModeBlink ==> Tick(t, s, now).levels == YellowOnly(!s.yellowState)
    ensures s.state.mode == ModeOff ==> Tick(t, s, now).levels == Dark()
  {
  }
}
