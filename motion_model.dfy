/**
 * The motion controller and its state machine as a value-level model.
 *
 * `Ctl` gathers every piece of state one controller step can read or change:
 * the state machine's current and requested states, the controller's
 * direction, time stamps and last measures, the highest-corner algorithm's
 * corners, the output pins, the fault table and the display updates sent so
 * far. Each operation of MotionStateMachine and MotionController is a
 * function on `Ctl`; the classes in module Motion are proved against them.
 * Times are the 32-bit `millis()` counter, and elapsed times are 32-bit
 * unsigned differences, so they stay right across the counter's wrap-around.
 */
module MotionModel {
  import opened Types
  import opened FaultHandling
  import opened HighestCorner

  // ---------------------------------------------------------------------------
  // Vocabulary

  /** MotionStateMachine::STATE, in declaration order. */
  datatype MotionState = StateNone | NotRunning | MovementRequested | Moving | Faulted

  /** MovementDirection. */
  datatype Direction = Raise | Lower | NoDirection

  function Ordinal(s: MotionState): (n: nat)
    ensures n < 5
  {
    match s
    case StateNone => 0
    case NotRunning => 1
    case MovementRequested => 2
    case Moving => 3
    case Faulted => 4
  }

  /** The display name of each state, indexed by its ordinal. */
  const MotionStateNames: seq<string> := ["READY", "STOPPED", "STEADYING", "MOVING", "FAULTED"]

  /** The states are listed in order and each has exactly one name. */
  lemma StateNamesCoverStates(s: MotionState, t: MotionState)
    ensures |MotionStateNames| == 5 && Ordinal(s) < |MotionStateNames|
    ensures Ordinal(s) == Ordinal(t) ==> s == t
  {
  }

  /** The output pins: four corner solenoids (TR, TL, BL, BR) and the enable line. */
  datatype Pins = Pins(tr: bool, tl: bool, bl: bool, br: bool, enable: bool)

  const AllOff := Pins(false, false, false, false, false)

  /** The fault handler's state: the latch table and its two bookkeeping fields. */
  datatype FaultTable = FaultTable(latched: seq<bool>, minorFaultState: int, lastTs: bv32)

  /** `hasFault()`: some code is latched. */
  predicate HasFault(t: FaultTable)
  {
    Latched(t.latched, Zero, AllOk)
  }

  /** `setFaultCode`: latching a clear code stamps it; an already latched code changes nothing. */
  function SetFault(t: FaultTable, code: nat, now: bv32): (r: FaultTable)
    requires code < |t.latched|
  {
    if t.latched[code] then t else FaultTable(t.latched[code := true], 0, now)
  }

  /** `onFaultUnlatchEvent` with the event's row `m` of the event-to-code table. */
  function Unlatch(t: FaultTable, m: seq<bool>): (r: FaultTable)
    requires |m| >= EventSpan
  {
    t.(latched := AfterEvent(t.latched, m))
  }

  /** What the display is sent: state, the four ram outputs, direction, enable and the fault to show. */
  datatype DisplayState = DisplayState(motionState: MotionState, rams: seq<bool>, dirn: Direction, enable: bool, faultType: int)

  /** The controller's fixed configuration. */
  datatype Config = Config(
    dataReceive: seq<bool>,   // event INCLINOMETER_DATA_RECEIVE's row of the unlatch table
    movementEnd: seq<bool>,   // event MOVEMENT_COMMAND_END's row of the unlatch table
    unreadyCode: nat,         // the code INCLINOMETER_UNREADY
    lowerbound: real,         // highest-corner deadband
    upperbound: real)         // highest-corner band

  ghost predicate ValidConfig(cfg: Config)
  {
    |cfg.dataReceive| >= EventSpan && |cfg.movementEnd| >= EventSpan && cfg.unreadyCode < AllOk
  }

  datatype Ctl = Ctl(
    current: MotionState,
    requested: MotionState,
    stateStart: bv32,
    direction: Direction,
    corners: Corners,
    pins: Pins,
    faults: FaultTable,
    lastReading: bv32,
    lastUnstable: bv32,
    lastDisp: bv32,
    measures: Vector2,
    display: seq<DisplayState>)

  ghost predicate ValidCtl(c: Ctl)
  {
    |c.faults.latched| == AllOk
  }

  // ---------------------------------------------------------------------------
  // Timers

  const WatchdogMillis: bv32 := 500
  const StableMillis: bv32 := 1000
  const DispUpdatePeriodMillis: bv32 := 1000
  /** Angular rate, in hundredths of a degree per second, at or above which the platform is unstable. */
  const UnstableRate: real := 0.1

  /** Milliseconds from `since` to `now`, as unsigned 32-bit subtraction. */
  function Elapsed(now: bv32, since: bv32): bv32
  {
    now - since
  }

  /** A timer started at `since` reads `d` after `d` milliseconds, even across the counter's wrap. */
  lemma ElapsedAcrossWrap(since: bv32, d: bv32)
    ensures Elapsed(since + d, since) == d
  {
  }

  // ---------------------------------------------------------------------------
  // MotionController

  function Initial(t: FaultTable): (c: Ctl)
  {
    Ctl(StateNone, StateNone, 0, NoDirection, NoCorner, AllOff, t, 0, 0, 0, Vector2(0.0, 0.0), [])
  }

  /** `Initialize`: corners and enable low, sensor timer started, display due one millisecond later. */
  function Initialize(c: Ctl, now: bv32): (r: Ctl)
  {
    c.(pins := AllOff, lastReading := now, lastDisp := now - DispUpdatePeriodMillis)
  }

  function RequestRaise(c: Ctl): (r: Ctl)
  {
    c.(requested := MovementRequested, direction := Raise)
  }

  function RequestLower(c: Ctl): (r: Ctl)
  {
    c.(requested := MovementRequested, direction := Lower)
  }

  function RequestOff(c: Ctl): (r: Ctl)
  {
    c.(requested := NotRunning, direction := NoDirection)
  }

  /** The requests set only the requested state and the direction; the current state waits for a step. */
  lemma RequestsOnlyRequest(c: Ctl)
    ensures RequestRaise(c).current == c.current && RequestRaise(c) == c.(requested := MovementRequested, direction := Raise)
    ensures RequestLower(c).current == c.current && RequestLower(c).direction == Lower
    ensures RequestOff(c).current == c.current && RequestOff(c).requested == NotRunning
    ensures RequestRaise(c).(direction := Lower) == RequestLower(c)
  {
  }

  /** `StopMovement`: every output low, then the MOVEMENT_COMMAND_END event. */
  function StopMovement(c: Ctl, cfg: Config): (r: Ctl)
    requires ValidConfig(cfg)
  {
    c.(pins := AllOff, faults := Unlatch(c.faults, cfg.movementEnd))
  }

  /** `StartMovement`: enable high; the corner outputs are left as they are. */
  function StartMovement(c: Ctl): (r: Ctl)
  {
    c.(pins := c.pins.(enable := true))
  }

  /** `getCorner(i, lowering)` on the corners `k`. */
  function Ram(k: Corners, i: UInt16, lowering: bool): bool
  {
    k[CornerIndex(i, lowering)]
  }

  /** `MovementAlgorithmStep`: update the corners from the last measures and drive the four outputs. */
  function MovementAlgorithmStep(c: Ctl, cfg: Config): (r: Ctl)
  {
    var k := NextCorners(c.corners, c.measures.x, c.measures.y, cfg.lowerbound, cfg.upperbound);
    var lowering := c.direction == Lower;
    c.(corners := k, pins := c.pins.(tr := Ram(k, 0, lowering), tl := Ram(k, 1, lowering), bl := Ram(k, 2, lowering), br := Ram(k, 3, lowering)))
  }

  /** Raising drives the high corners (TR, TL, BL, BR = 0, 1, 2, 3); lowering drives the opposite ones. */
  lemma MovementOutputs(c: Ctl, cfg: Config)
    ensures var r := MovementAlgorithmStep(c, cfg);
      && (c.direction != Lower ==> r.pins == Pins(r.corners[0], r.corners[1], r.corners[2], r.corners[3], c.pins.enable))
      && (c.direction == Lower ==> r.pins == Pins(r.corners[2], r.corners[3], r.corners[0], r.corners[1], c.pins.enable))
  {
  }

  /** `CheckStabilityStep`: no unstable reading for more than a second. */
  predicate Stable(c: Ctl, now: bv32)
  {
    Elapsed(now, c.lastUnstable) > StableMillis
  }

  // ---------------------------------------------------------------------------
  // MotionStateMachine

  /** The exit handlers: only leaving MOVING has an effect (StopMovement). */
  function Exit(c: Ctl, s: MotionState, cfg: Config): (r: Ctl)
    requires ValidConfig(cfg)
  {
    if s == Moving then StopMovement(c, cfg) else c
  }

  /** The enter handlers: NOT_RUNNING stops, MOVING starts; the others only report. */
  function Enter(c: Ctl, s: MotionState, cfg: Config): (r: Ctl)
    requires ValidConfig(cfg)
  {
    match s
    case NotRunning => StopMovement(c, cfg)
    case Moving => StartMovement(c)
    case _ => c
  }

  /** The step handler of the current state; its result is the next requested state. */
  function StepHandler(c: Ctl, cfg: Config, now: bv32): (r: Ctl)
  {
    match c.current
    case StateNone => c
    case NotRunning => c.(requested := if HasFault(c.faults) then Faulted else NotRunning)
    case MovementRequested =>
      c.(requested := if HasFault(c.faults) then Faulted else if Stable(c, now) then Moving else MovementRequested)
    case Moving => if HasFault(c.faults) then c.(requested := Faulted) else MovementAlgorithmStep(c, cfg).(requested := Moving)
    case Faulted => c.(requested := Faulted)
  }

  /** `MotionStateMachine::Step`. */
  function MachineStep(c: Ctl, cfg: Config, now: bv32): (r: Ctl)
    requires ValidConfig(cfg)
  {
    if c.current != c.requested then
      if c.current == Faulted && c.requested != NotRunning then c
      else StepHandler(Transition(c, cfg, now), cfg, now)
    else StepHandler(c, cfg, now)
  }

  /** The transition part of a step: exit the old state, enter the new one, then switch and stamp. */
  function Transition(c: Ctl, cfg: Config, now: bv32): (r: Ctl)
    requires ValidConfig(cfg)
  {
    Enter(Exit(c, c.current, cfg), c.requested, cfg).(current := c.requested, stateStart := now)
  }

  /** The machine starts and stays in STATE_NONE until something is requested. */
  lemma NoneWaitsForRequest(c: Ctl, cfg: Config, now: bv32)
    requires ValidConfig(cfg) && c.current == StateNone && c.requested == StateNone
    ensures MachineStep(c, cfg, now) == c
  {
  }

  /** In FAULTED, any request other than NOT_RUNNING is ignored and the step changes nothing. */
  lemma FaultedIgnoresRequests(c: Ctl, cfg: Config, now: bv32)
    requires ValidConfig(cfg) && c.current == Faulted && c.requested != NotRunning
    ensures MachineStep(c, cfg, now) == c
  {
  }

  /** A transition runs the old state's exit, then the new state's enter, then switches and stamps the time. */
  lemma TransitionOrder(c: Ctl, cfg: Config, now: bv32)
    requires ValidConfig(cfg) && c.current != c.requested && !(c.current == Faulted && c.requested != NotRunning)
    ensures var t := Transition(c, cfg, now);
      && t.current == c.requested && t.stateStart == now
      && t == Enter(Exit(c, c.current, cfg), c.requested, cfg).(current := c.requested, stateStart := now)
      && MachineStep(c, cfg, now) == StepHandler(t, cfg, now)
  {
  }

  /** Which handlers touch the controller: leaving MOVING or entering NOT_RUNNING stops, entering MOVING starts. */
  lemma TransitionEffects(c: Ctl, cfg: Config, now: bv32)
    requires ValidConfig(cfg) && c.current != c.requested && !(c.current == Faulted && c.requested != NotRunning)
    ensures var t := Transition(c, cfg, now);
      && (c.requested == Moving ==> t.pins.enable)
      && (c.requested == NotRunning || c.current == Moving ==> t.pins.(enable := false) == AllOff)
      && (c.requested == NotRunning ==> t.pins == AllOff)
      && (c.current != Moving && c.requested != NotRunning && c.requested != Moving ==> t.pins == c.pins && t.faults == c.faults)
  {
  }

  /** A step handler changes only the requested state, except MOVING's, which also drives the corners. */
  lemma StepHandlerRequest(c: Ctl, cfg: Config, now: bv32)
    ensures var r := StepHandler(c, cfg, now);
      && r.current == c.current && r.faults == c.faults
      && (c.current in {NotRunning, MovementRequested, Moving} ==> (r.requested == Faulted <==> HasFault(c.faults)))
      && (c.current == Faulted ==> r == c.(requested := Faulted))
  {
  }

  /** A FAULTED request always takes the machine to FAULTED, and FAULTED requests itself again. */
  lemma {:induction false} FaultedStaysRequested(c: Ctl, cfg: Config, now: bv32)
    requires ValidConfig(cfg) && c.requested == Faulted
    ensures MachineStep(c, cfg, now).current == Faulted && MachineStep(c, cfg, now).requested == Faulted
  {
    if c.current != c.requested {
      StepHandlerRequest(Transition(c, cfg, now), cfg, now);
    } else {
      StepHandlerRequest(c, cfg, now);
    }
  }

  /** The running states request FAULTED exactly when a fault is latched after the step. */
  lemma {:induction false} FaultRequestsFaulted(c: Ctl, cfg: Config, now: bv32)
    requires ValidConfig(cfg)
    ensures var r := MachineStep(c, cfg, now);
      r.current in {NotRunning, MovementRequested, Moving} ==> (r.requested == Faulted <==> HasFault(r.faults))
  {
    if c.current != c.requested {
      if !(c.current == Faulted && c.requested != NotRunning) {
        StepHandlerRequest(Transition(c, cfg, now), cfg, now);
      }
    } else {
      StepHandlerRequest(c, cfg, now);
    }
  }

  /** Waiting for stability: MOVING is requested iff no fault is latched and the platform is stable. */
  lemma SteadyingToMoving(c: Ctl, cfg: Config, now: bv32)
    requires ValidConfig(cfg) && c.current == MovementRequested && c.requested == MovementRequested
    ensures MachineStep(c, cfg, now).requested == Moving <==> !HasFault(c.faults) && Stable(c, now)
  {
  }

  /** While MOVING the algorithm drives the corners only when no fault is latched. */
  lemma MovingRunsAlgorithm(c: Ctl, cfg: Config, now: bv32)
    requires ValidConfig(cfg) && c.current == Moving && c.requested == Moving
    ensures !HasFault(c.faults) ==> MachineStep(c, cfg, now) == MovementAlgorithmStep(c, cfg)
    ensures HasFault(c.faults) ==> MachineStep(c, cfg, now) == c.(requested := Faulted)
  {
  }

  /**
   * A fault seen while MOVING stops the platform on the next step: the outputs
   * go low and the machine is FAULTED, still requesting FAULTED.
   */
  lemma {:induction false} FaultStopsMovement(c: Ctl, cfg: Config, now: bv32, later: bv32)
    requires ValidConfig(cfg) && c.current == Moving && c.requested == Moving && HasFault(c.faults)
    ensures var c1 := MachineStep(c, cfg, now);
      var c2 := MachineStep(c1, cfg, later);
      && c1.requested == Faulted && c1.pins == c.pins
      && c2.current == Faulted && c2.requested == Faulted && c2.pins == AllOff
  {
    MovingRunsAlgorithm(c, cfg, now);
  }

  /**
   * Switching off while FAULTED: one step in NOT_RUNNING with the outputs low.
   * If a fault is still latched after the movement-end event, the machine
   * requests FAULTED and is back there on the next step.
   */
  lemma {:induction false} OffWhileFaulted(c: Ctl, cfg: Config, now: bv32, later: bv32)
    requires ValidConfig(cfg) && c.current == Faulted && c.requested == NotRunning
    ensures var c1 := MachineStep(c, cfg, now);
      && c1.current == NotRunning && c1.pins == AllOff && c1.stateStart == now
      && c1.faults == Unlatch(c.faults, cfg.movementEnd)
      && (HasFault(c1.faults) ==> c1.requested == Faulted && MachineStep(c1, cfg, later).current == Faulted)
      && (!HasFault(c1.faults) ==> c1.requested == NotRunning)
  {
    var t := Transition(c, cfg, now);
    assert t == c.(pins := AllOff, faults := Unlatch(c.faults, cfg.movementEnd), current := NotRunning, stateStart := now);
  }

  // ---------------------------------------------------------------------------
  // Safety of the outputs

  /** The enable line is high exactly in MOVING, and outside MOVING no corner output is driven. */
  ghost predicate SafeOutputs(c: Ctl)
  {
    && (c.pins.enable <==> c.current == Moving)
    && (c.current != Moving ==> c.pins == AllOff)
  }

  lemma InitialIsSafe(t: FaultTable)
    ensures SafeOutputs(Initial(t))
  {
  }

  /**
   * `Initialize` drives every output low, so it leaves the outputs safe exactly
   * when the machine is not MOVING: called while MOVING, it drops the enable
   * line while the state stays MOVING.
   */
  lemma InitializeKeepsSafe(c: Ctl, now: bv32)
    ensures SafeOutputs(Initialize(c, now)) <==> c.current != Moving
  {
  }

  /** Every machine step keeps the outputs safe. */
  lemma {:induction false} MachineStepKeepsSafe(c: Ctl, cfg: Config, now: bv32)
    requires ValidConfig(cfg) && SafeOutputs(c)
    ensures SafeOutputs(MachineStep(c, cfg, now))
  {
    if c.current != c.requested && !(c.current == Faulted && c.requested != NotRunning) {
      var t := Transition(c, cfg, now);
      TransitionEffects(c, cfg, now);
      assert SafeOutputs(t);
    }
  }

  lemma RequestsKeepSafe(c: Ctl)
    requires SafeOutputs(c)
    ensures SafeOutputs(RequestRaise(c)) && SafeOutputs(RequestLower(c)) && SafeOutputs(RequestOff(c))
  {
  }

  // ---------------------------------------------------------------------------
  // One controller step

  /** What one `Step` gets from the outside: the time, and whether and what the sensor delivered. */
  datatype StepInput = StepInput(now: bv32, hasData: bool, measures: Vector2, angularRates: Vector2)

  /** A rate in radians per second, in the unit the stability test compares. */
  function ScaledRate(r: real): real
  {
    r * 18000.0 / Pi
  }

  /** Sensor intake: on fresh data, unlatch its faults, restart the watchdog, take the measures and check the rates. */
  function SensorIntake(c: Ctl, cfg: Config, input: StepInput): (r: Ctl)
    requires ValidConfig(cfg)
  {
    if input.hasData then
      var t := c.(faults := Unlatch(c.faults, cfg.dataReceive), lastReading := input.now, measures := input.measures);
      if ScaledRate(input.angularRates.x) >= UnstableRate || ScaledRate(input.angularRates.y) >= UnstableRate then t.(lastUnstable := input.now)
      else t
    else c
  }

  /** The watchdog: no reading for more than 500 ms latches INCLINOMETER_UNREADY. */
  function Watchdog(c: Ctl, cfg: Config, now: bv32): (r: Ctl)
    requires ValidConfig(cfg) && ValidCtl(c)
  {
    if Elapsed(now, c.lastReading) > WatchdogMillis then c.(faults := SetFault(c.faults, cfg.unreadyCode, now)) else c
  }

  /** The fault the display shows: the first latched one, or ALL_OK. */
  function ShownFault(t: FaultTable): int
  {
    if HasFault(t) then FirstLatched(t.latched, Zero) else AllOk
  }

  function Snapshot(c: Ctl): DisplayState
  {
    var lowering := c.direction == Lower;
    DisplayState(c.current, [Ram(c.corners, 0, lowering), Ram(c.corners, 1, lowering), Ram(c.corners, 2, lowering), Ram(c.corners, 3, lowering)],
      c.direction, c.current == Moving, ShownFault(c.faults))
  }

  /** `DispUpdate`: more than a second since the last update sends a new one. */
  function DispUpdate(c: Ctl, now: bv32): (r: Ctl)
  {
    if Elapsed(now, c.lastDisp) > DispUpdatePeriodMillis then c.(display := c.display + [Snapshot(c)], lastDisp := now) else c
  }

  /** `MotionController::Step`: intake, watchdog, display, then the state machine. */
  function ControllerStep(c: Ctl, cfg: Config, input: StepInput): (r: Ctl)
    requires ValidConfig(cfg) && ValidCtl(c)
  {
    var s := SensorIntake(c, cfg, input);
    MachineStep(DispUpdate(Watchdog(s, cfg, input.now), input.now), cfg, input.now)
  }

  lemma SensorIntakeKeepsValid(c: Ctl, cfg: Config, input: StepInput)
    requires ValidConfig(cfg) && ValidCtl(c)
    ensures ValidCtl(SensorIntake(c, cfg, input))
  {
  }

  /** A step with data restarts the watchdog first, so the watchdog cannot fire in that step. */
  lemma DataSilencesWatchdog(c: Ctl, cfg: Config, input: StepInput)
    requires ValidConfig(cfg) && ValidCtl(c) && input.hasData
    ensures var s := SensorIntake(c, cfg, input);
      s.lastReading == input.now && Watchdog(s, cfg, input.now) == s
  {
  }

  /** Without data, the watchdog latches the unready fault iff more than 500 ms have passed. */
  lemma WatchdogFires(c: Ctl, cfg: Config, input: StepInput)
    requires ValidConfig(cfg) && ValidCtl(c) && !input.hasData
    ensures var w := Watchdog(SensorIntake(c, cfg, input), cfg, input.now);
      && (Elapsed(input.now, c.lastReading) > WatchdogMillis ==> w.faults.latched[cfg.unreadyCode])
      && (Elapsed(input.now, c.lastReading) <= WatchdogMillis ==> w == c)
  {
  }

  /** The unstable time stamp is refreshed iff data arrived with a (signed) rate at or above the threshold. */
  lemma UnstableRefresh(c: Ctl, cfg: Config, input: StepInput)
    requires ValidConfig(cfg)
    ensures input.hasData && (ScaledRate(input.angularRates.x) >= UnstableRate || ScaledRate(input.angularRates.y) >= UnstableRate)
      ==> SensorIntake(c, cfg, input).lastUnstable == input.now
    ensures !input.hasData || (ScaledRate(input.angularRates.x) < UnstableRate && ScaledRate(input.angularRates.y) < UnstableRate)
      ==> SensorIntake(c, cfg, input).lastUnstable == c.lastUnstable
  {
  }

  /** Negative rates never count as unstable, however fast the platform turns. */
  lemma {:induction false} NegativeRatesAreStable(c: Ctl, cfg: Config, input: StepInput)
    requires ValidConfig(cfg) && input.angularRates.x <= 0.0 && input.angularRates.y <= 0.0
    ensures SensorIntake(c, cfg, input).lastUnstable == c.lastUnstable
  {
    NonPositiveScaled(input.angularRates.x);
    NonPositiveScaled(input.angularRates.y);
  }

  lemma NonPositiveScaled(r: real)
    requires r <= 0.0
    ensures ScaledRate(r) <= 0.0
  {
    assert Pi > 0.0;
    assert r * 18000.0 <= 0.0;
  }

  /** The display is updated, and its timer restarted, iff more than a second has passed. */
  lemma DisplayGate(c: Ctl, now: bv32)
    ensures Elapsed(now, c.lastDisp) > DispUpdatePeriodMillis ==>
      DispUpdate(c, now).display == c.display + [Snapshot(c)] && DispUpdate(c, now).lastDisp == now
    ensures Elapsed(now, c.lastDisp) <= DispUpdatePeriodMillis ==> DispUpdate(c, now) == c
  {
  }

  /** After `Initialize` the display is not due until a millisecond has passed. */
  lemma InitializeDisplayTimer(c: Ctl, now: bv32)
    ensures Elapsed(now, Initialize(c, now).lastDisp) == DispUpdatePeriodMillis
    ensures Elapsed(now + 1, Initialize(c, now).lastDisp) > DispUpdatePeriodMillis
  {
  }

  /** The shown fault is ALL_OK iff nothing is latched, and a fatal code iff a fatal fault is latched. */
  lemma {:induction false} ShownFaultMeaning(t: FaultTable)
    requires |t.latched| == AllOk
    ensures ShownFault(t) == AllOk <==> !HasFault(t)
    ensures ShownFault(t) < FatalEndSentinel <==> Latched(t.latched, Zero, FatalEndSentinel)
  {
    if Latched(t.latched, Zero, FatalEndSentinel) {
      var i :| Zero <= i < FatalEndSentinel && i < |t.latched| && t.latched[i];
      assert HasFault(t);
    }
  }

  /** Intake, watchdog and display leave the state machine and the outputs alone. */
  lemma {:induction false} PreludeKeepsOutputs(c: Ctl, cfg: Config, input: StepInput)
    requires ValidConfig(cfg) && ValidCtl(c)
    ensures var s := SensorIntake(c, cfg, input);
      var d := DispUpdate(Watchdog(s, cfg, input.now), input.now);
      d.pins == c.pins && d.current == c.current && d.requested == c.requested
  {
    var s := SensorIntake(c, cfg, input);
    assert s.pins == c.pins && s.current == c.current && s.requested == c.requested;
    var w := Watchdog(s, cfg, input.now);
    assert w.pins == c.pins && w.current == c.current && w.requested == c.requested;
  }

  /** A whole controller step keeps the outputs safe. */
  lemma {:induction false} ControllerStepKeepsSafe(c: Ctl, cfg: Config, input: StepInput)
    requires ValidConfig(cfg) && ValidCtl(c) && SafeOutputs(c)
    ensures SafeOutputs(ControllerStep(c, cfg, input))
  {
    var s := SensorIntake(c, cfg, input);
    var d := DispUpdate(Watchdog(s, cfg, input.now), input.now);
    PreludeKeepsOutputs(c, cfg, input);
    MachineStepKeepsSafe(d, cfg, input.now);
  }
}
