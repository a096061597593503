/**
 * The motion state machine and the motion controller as objects.
 *
 * MotionController owns the state machine and the highest-corner algorithm
 * and uses the fault handler; the state machine calls back into the
 * controller for its enter, exit and step effects. Every method is proved
 * against the matching function of module MotionModel through `Abs()`,
 * the controller's whole state as one `Ctl` value.
 */
module Motion {
  import opened Types
  import opened FaultHandling
  import opened HighestCorner
  import opened MotionModel

  class MotionStateMachine {
    var currentState: MotionState
    var requestedState: MotionState
    var stateStartMillis: bv32

    /** Both states start as STATE_NONE; the start time is not set by the source and is 0 here. */
    constructor ()
      ensures currentState == StateNone && requestedState == StateNone && stateStartMillis == 0
    {
      currentState := StateNone;
      requestedState := StateNone;
      stateStartMillis := 0;
    }

    /** Asks for a transition on the next step; the current state is untouched. */
    method RequestState(state: MotionState)
      modifies this`requestedState
      ensures requestedState == state
    {
      requestedState := state;
    }

    function GetState(): (s: MotionState)
      reads this
      ensures s == currentState
    {
      currentState
    }

    /**
     * One step: a pending transition (ignored in FAULTED unless it is to
     * NOT_RUNNING) runs the exit and enter handlers, then the current state's
     * step handler picks the next requested state.
     */
    method Step(ctl: MotionController, now: bv32)
      requires ctl.Valid() && ctl.stateMachine == this
      modifies this, ctl`pins, ctl.handler.faults, ctl.cornerAlgo.corners
      ensures ctl.Abs() == MachineStep(old(ctl.Abs()), ctl.Cfg(), now)
    {
      ghost var c0 := ctl.Abs();
      if currentState != requestedState {
        if currentState == Faulted && requestedState != NotRunning {
          // Ignore transitions in fault that are not a stop.
          return;
        }
        // The exit handlers of NOT_RUNNING, MOVEMENT_REQUESTED and FAULTED only report.
        if currentState == Moving {
          OnStateMovingExit(ctl);
        }
        assert ctl.Abs() == Exit(c0, c0.current, ctl.Cfg());
        // The enter handlers of MOVEMENT_REQUESTED and FAULTED only report.
        if requestedState == NotRunning {
          OnStateNotRunningEnter(ctl);
        } else if requestedState == Moving {
          OnStateMovingEnter(ctl);
        }
        assert ctl.Abs() == Enter(Exit(c0, c0.current, ctl.Cfg()), c0.requested, ctl.Cfg());
        currentState := requestedState;
        stateStartMillis := now;
        assert ctl.Abs() == Transition(c0, ctl.Cfg(), now);
      }
      ghost var c1 := ctl.Abs();
      match currentState {
        case NotRunning =>
          requestedState := OnStateNotRunningStep(ctl);
        case MovementRequested =>
          requestedState := OnStateMovementRequestedStep(ctl, now);
        case Moving =>
          var next := OnStateMovingStep(ctl);
          requestedState := next;
        case Faulted =>
          requestedState := OnStateFaultedStep();
        case StateNone =>
      }
      assert ctl.Abs() == StepHandler(c1, ctl.Cfg(), now);
    }

    method OnStateNotRunningEnter(ctl: MotionController)
      requires ctl.Valid() && ctl.stateMachine == this
      modifies ctl`pins, ctl.handler.faults
      ensures ctl.Abs() == MotionModel.StopMovement(old(ctl.Abs()), ctl.Cfg())
    {
      ctl.StopMovement();
    }

    /** A fault sends NOT_RUNNING to FAULTED; otherwise it stays. */
    method OnStateNotRunningStep(ctl: MotionController) returns (next: MotionState)
      requires ctl.Valid()
      ensures next == (if HasFault(ctl.Abs().faults) then Faulted else NotRunning)
    {
      var fault := ctl.handler.HasFault();
      if fault {
        return Faulted;
      }
      return NotRunning;
    }

    /** A fault sends MOVEMENT_REQUESTED to FAULTED; stability, once reached, to MOVING. */
    method OnStateMovementRequestedStep(ctl: MotionController, now: bv32) returns (next: MotionState)
      requires ctl.Valid()
      ensures next == (if HasFault(ctl.Abs().faults) then Faulted else if Stable(ctl.Abs(), now) then Moving else MovementRequested)
    {
      var fault := ctl.handler.HasFault();
      if fault {
        return Faulted;
      }
      var stable := ctl.CheckStabilityStep(now);
      assert stable == Stable(ctl.Abs(), now);
      if stable {
        return Moving;
      }
      return MovementRequested;
    }

    method OnStateMovingEnter(ctl: MotionController)
      requires ctl.Valid() && ctl.stateMachine == this
      modifies ctl`pins
      ensures ctl.Abs() == MotionModel.StartMovement(old(ctl.Abs()))
    {
      ctl.StartMovement();
    }

    /** A fault sends MOVING to FAULTED without driving the corners; otherwise the algorithm runs. */
    method OnStateMovingStep(ctl: MotionController) returns (next: MotionState)
      requires ctl.Valid() && ctl.stateMachine == this
      modifies ctl`pins, ctl.cornerAlgo.corners
      ensures HasFault(old(ctl.Abs()).faults) ==> next == Faulted && ctl.Abs() == old(ctl.Abs())
      ensures !HasFault(old(ctl.Abs()).faults) ==> next == Moving && ctl.Abs() == MotionModel.MovementAlgorithmStep(old(ctl.Abs()), ctl.Cfg())
    {
      var fault := ctl.handler.HasFault();
      if fault {
        return Faulted;
      }
      ctl.MovementAlgorithmStep();
      return Moving;
    }

    method OnStateMovingExit(ctl: MotionController)
      requires ctl.Valid() && ctl.stateMachine == this
      modifies ctl`pins, ctl.handler.faults
      ensures ctl.Abs() == MotionModel.StopMovement(old(ctl.Abs()), ctl.Cfg())
    {
      ctl.StopMovement();
    }

    /** FAULTED only ever asks for itself. */
    method OnStateFaultedStep() returns (next: MotionState)
      ensures next == Faulted
    {
      return Faulted;
    }
  }

  class MotionController {
    const stateMachine: MotionStateMachine
    const cornerAlgo: HighestCornerAlgo
    const handler: Handler
    /** Rows of the constant event-to-code unlatch table, and the unready fault code. */
    const dataReceiveMapping: seq<bool>
    const movementEndMapping: seq<bool>
    const unreadyCode: nat

    var lastDispUpdate: bv32
    var direction: Direction
    var lastSensorReadingTimestamp: bv32
    var lastSensorReadingUnstable: bv32
    var lastSensorMeasures: Vector2
    /** The output pins as last written. */
    var pins: Pins
    /** Every state sent to the display, oldest first. */
    var display: seq<DisplayState>

    ghost predicate Valid()
    {
      && handler.Valid() && cornerAlgo.Valid() && handler.faults != cornerAlgo.corners
      && ValidConfig(Cfg())
    }

    function Cfg(): Config
    {
      Config(dataReceiveMapping, movementEndMapping, unreadyCode, cornerAlgo.lowerbound, cornerAlgo.upperbound)
    }

    ghost function Abs(): Ctl
      requires Valid()
      reads this, stateMachine, cornerAlgo.corners, handler, handler.faults
    {
      Ctl(stateMachine.currentState, stateMachine.requestedState, stateMachine.stateStartMillis,
        direction, cornerAlgo.corners[..], pins,
        FaultTable(handler.faults[..], handler.minorFaultState, handler.lastTs),
        lastSensorReadingTimestamp, lastSensorReadingUnstable, lastDispUpdate, lastSensorMeasures, display)
    }

    /**
     * The corner algorithm's band is 0.05 to 0.1 degrees, in radians. The
     * time stamps and measures the source leaves unset until `Initialize`
     * are 0 here, and the outputs start low.
     */
    constructor (h: Handler, dataReceive: seq<bool>, movementEnd: seq<bool>, unready: nat)
      requires h.Valid() && |dataReceive| >= EventSpan && |movementEnd| >= EventSpan && unready < AllOk
      ensures Valid() && handler == h && fresh(stateMachine) && fresh(cornerAlgo) && fresh(cornerAlgo.corners)
      ensures Cfg() == Config(dataReceive, movementEnd, unready, 0.05 / 180.0 * Pi, 0.1 / 180.0 * Pi)
      ensures Abs() == Initial(FaultTable(h.faults[..], h.minorFaultState, h.lastTs))
    {
      stateMachine := new MotionStateMachine();
      cornerAlgo := new HighestCornerAlgo(0.05 / 180.0 * Pi, 0.1 / 180.0 * Pi);
      handler := h;
      dataReceiveMapping := dataReceive;
      movementEndMapping := movementEnd;
      unreadyCode := unready;
      lastDispUpdate := 0;
      direction := NoDirection;
      lastSensorReadingTimestamp := 0;
      lastSensorReadingUnstable := 0;
      lastSensorMeasures := Vector2(0.0, 0.0);
      pins := AllOff;
      display := [];
    }

    /** Outputs low, the sensor timer started at `now`, the display due; `displayReady` is the display's `begin`. */
    method Initialize(now: bv32, displayReady: bool) returns (ok: bool)
      requires Valid()
      modifies this`pins, this`lastSensorReadingTimestamp, this`lastDispUpdate
      ensures Abs() == MotionModel.Initialize(old(Abs()), now) && ok == displayReady
    {
      SetCorners(false, false, false, false);
      pins := pins.(enable := false);
      lastSensorReadingTimestamp := now;
      lastDispUpdate := now - DispUpdatePeriodMillis;
      ok := displayReady;
    }

    method RequestRaise()
      requires Valid()
      modifies stateMachine`requestedState, this`direction
      ensures Abs() == MotionModel.RequestRaise(old(Abs()))
    {
      stateMachine.RequestState(MovementRequested);
      direction := Raise;
    }

    method RequestLower()
      requires Valid()
      modifies stateMachine`requestedState, this`direction
      ensures Abs() == MotionModel.RequestLower(old(Abs()))
    {
      stateMachine.RequestState(MovementRequested);
      direction := Lower;
    }

    method RequestOff()
      requires Valid()
      modifies stateMachine`requestedState, this`direction
      ensures Abs() == MotionModel.RequestOff(old(Abs()))
    {
      stateMachine.RequestState(NotRunning);
      direction := NoDirection;
    }

    /** One controller step at time `input.now`, with what the sensor delivered. */
    method Step(input: StepInput)
      requires Valid()
      modifies this, stateMachine, handler, handler.faults, cornerAlgo.corners
      ensures Abs() == ControllerStep(old(Abs()), Cfg(), input)
    {
      Intake(input);
      Watch(input.now);
      DispUpdate(input.now);
      stateMachine.Step(this, input.now);
    }

    /** The sensor part of `Step`: on fresh data, unlatch, stamp, take the measures and check the rates. */
    method Intake(input: StepInput)
      requires Valid()
      modifies this`lastSensorReadingTimestamp, this`lastSensorMeasures, this`lastSensorReadingUnstable, handler.faults
      ensures Abs() == SensorIntake(old(Abs()), Cfg(), input)
    {
      if input.hasData {
        handler.OnFaultUnlatchEvent(dataReceiveMapping);
        lastSensorReadingTimestamp := input.now;
        lastSensorMeasures := input.measures;
        var senseRollRate := input.angularRates.x * 18000.0 / Pi;
        var sensePitchRate := input.angularRates.y * 18000.0 / Pi;
        if senseRollRate >= 0.1 || sensePitchRate >= 0.1 {
          lastSensorReadingUnstable := input.now;
        }
      }
    }

    /** The watchdog part of `Step`. */
    method Watch(now: bv32)
      requires Valid()
      modifies handler, handler.faults
      ensures Abs() == Watchdog(old(Abs()), Cfg(), now)
    {
      if Elapsed(now, lastSensorReadingTimestamp) > WatchdogMillis {
        handler.SetFaultCode(unreadyCode, now);
      }
    }

    method StartMovement()
      requires Valid()
      modifies this`pins
      ensures Abs() == MotionModel.StartMovement(old(Abs()))
    {
      pins := pins.(enable := true);
    }

    method StopMovement()
      requires Valid()
      modifies this`pins, handler.faults
      ensures Abs() == MotionModel.StopMovement(old(Abs()), Cfg())
    {
      SetCorners(false, false, false, false);
      pins := pins.(enable := false);
      handler.OnFaultUnlatchEvent(movementEndMapping);
    }

    /** Writes the four corner outputs TR, TL, BL, BR. */
    method SetCorners(corner1: bool, corner2: bool, corner3: bool, corner4: bool)
      modifies this`pins
      ensures pins == old(pins).(tr := corner1, tl := corner2, bl := corner3, br := corner4)
    {
      pins := pins.(tr := corner1, tl := corner2, bl := corner3, br := corner4);
    }

    /** Updates the corners from the last measures and drives the outputs, opposite corners when lowering. */
    method MovementAlgorithmStep()
      requires Valid()
      modifies cornerAlgo.corners, this`pins
      ensures Abs() == MotionModel.MovementAlgorithmStep(old(Abs()), Cfg())
    {
      cornerAlgo.Update(lastSensorMeasures.x, lastSensorMeasures.y);
      var lowering := direction == Lower;
      SetCorners(cornerAlgo.GetCorner(0, lowering), cornerAlgo.GetCorner(1, lowering),
        cornerAlgo.GetCorner(2, lowering), cornerAlgo.GetCorner(3, lowering));
    }

    /** Sends the display its state when more than a second has passed since the last time. */
    method DispUpdate(now: bv32)
      requires Valid()
      modifies this`display, this`lastDispUpdate
      ensures Abs() == MotionModel.DispUpdate(old(Abs()), now)
    {
      if Elapsed(now, lastDispUpdate) > DispUpdatePeriodMillis {
        var dstate := DisplayedState();
        display := display + [dstate];
        lastDispUpdate := now;
      }
    }

    /** The state `DispUpdate` sends: motion state, the four ram outputs, direction, enable and the fault to show. */
    method DisplayedState() returns (dstate: DisplayState)
      requires Valid()
      ensures dstate == Snapshot(Abs())
    {
      var lowering := direction == Lower;
      var rams := [cornerAlgo.GetCorner(0, lowering), cornerAlgo.GetCorner(1, lowering),
        cornerAlgo.GetCorner(2, lowering), cornerAlgo.GetCorner(3, lowering)];
      assert rams == Snapshot(Abs()).rams;
      var fault := handler.HasFault();
      var faultType: int;
      if fault {
        faultType := handler.NextFault(Zero);
      } else {
        faultType := AllOk;
      }
      assert faultType == ShownFault(Abs().faults);
      dstate := DisplayState(GetState(), rams, direction, GetState() == Moving, faultType);
    }

    /** Stable once no unstable reading has been seen for more than a second. */
    method CheckStabilityStep(now: bv32) returns (stable: bool)
      requires Valid()
      ensures stable == (Elapsed(now, lastSensorReadingUnstable) > StableMillis)
    {
      stable := Elapsed(now, lastSensorReadingUnstable) > StableMillis;
    }

    function GetState(): (s: MotionState)
      reads this, stateMachine
      ensures s == stateMachine.currentState
    {
      stateMachine.GetState()
    }

    function GetDirection(): (d: Direction)
      reads this
      ensures d == direction
    {
      direction
    }
  }
}
