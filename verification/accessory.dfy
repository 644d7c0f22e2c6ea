/** The accessory object itself: the source's state fields, updated in place by
    the HomeKit handlers and the timer and HTTP callbacks. Each method is proved
    to move the object exactly as the matching transition of module Motion does,
    and to keep the invariant Motion.Inv. */
module Accessory {
  import opened Commands
  import opened Motion
  import MotionProperties

  class ZWayVeluxAccessory {
    const cfg: Config
    /** State of the main power supply as last confirmed by a completion. */
    var powerState: int
    /** The settled position, reported as CurrentPosition. */
    var lastPosition: Percent
    /** DECREASING, INCREASING or STOPPED, reported as PositionState. */
    var currentPositionState: int
    /** The committed target, reported as TargetPosition. */
    var currentTargetPosition: Percent
    /** The armed start timer and the position its callback captured. */
    var startTimeout: Option<Timer>
    /** The armed stop timer, with the move's duration and target. */
    var stopTimeout: Option<Timer>
    /** Power-off timers armed and not yet fired; their handles are never kept. */
    var powerOffTimers: nat
    /** Power states requested from the transport whose completion is outstanding. */
    var pendingPower: seq<int>
    /** The position held by persistent storage. */
    var storedPosition: Percent
    /** What the accessory has done to the outside world so far. */
    ghost var effects: seq<Effect>

    ghost function State(): Blind
      reads this
    {
      Blind(powerState, lastPosition, currentPositionState, currentTargetPosition,
            startTimeout, stopTimeout, powerOffTimers, pendingPower, storedPosition, effects)
    }

    ghost predicate Valid()
      reads this
    {
      Inv(cfg, State())
    }

    /** Power off, stopped, and both the settled position and the target taken
        from the position loaded from storage. */
    constructor (cfg: Config, loaded: Percent)
      ensures Valid() && this.cfg == cfg && State() == Initial(loaded) && Idle(State())
    {
      this.cfg := cfg;
      powerState := POWER_OFF;
      lastPosition := loaded;
      currentPositionState := STOPPED;
      currentTargetPosition := loaded;
      startTimeout := None;
      stopTimeout := None;
      powerOffTimers := 0;
      pendingPower := [];
      storedPosition := loaded;
      effects := [];
      new;
      MotionProperties.InitialKeepsInv(cfg, loaded);
    }

    /** getCurrentPosition: the settled position, which equals the target
        whenever the motor is not running. */
    method GetCurrentPosition() returns (position: Percent)
      requires Valid()
      ensures position == lastPosition
      ensures stopTimeout.None? ==> position == currentTargetPosition
    {
      position := lastPosition;
    }

    /** getPositionState: STOPPED exactly when no stop timer is armed, else the
        direction of travel. */
    method GetPositionState() returns (state: int)
      requires Valid()
      ensures state == currentPositionState
      ensures state == STOPPED <==> stopTimeout.None?
      ensures state == DECREASING || state == INCREASING || state == STOPPED
    {
      state := currentPositionState;
    }

    /** getTargetPosition: the committed target, which is what storage holds. */
    method GetTargetPosition() returns (position: Percent)
      requires Valid()
      ensures position == currentTargetPosition
      ensures position == storedPosition
    {
      position := currentTargetPosition;
    }

    /** setPowerState: hand a power command to the transport only when the
        recorded state differs; the completion records the new state, at once
        in debug mode. */
    method SetPowerState(state: int)
      requires Valid() && (state == POWER_OFF || state == POWER_ON)
      modifies this
      ensures Valid() && State() == SwitchPower(cfg, old(State()), state)
    {
      if powerState != state {
        effects := effects + [PowerCommand(state, cfg.httpMethod, PowerUrl(cfg, state))];
        if cfg.debugMode {
          powerState := state;
        } else {
          pendingPower := pendingPower + [state];
        }
      }
      MotionProperties.SwitchPowerKeepsInv(cfg, old(State()), state);
    }

    /** operateBlinds: hand the motor command for this operation and position
        state to the transport; its completion changes nothing. */
    method OperateBlinds(op: Operation, state: int)
      modifies this`effects
      ensures effects == old(effects) + [MotorCommand(op, state, cfg.httpMethod, BlindsUrl(cfg, op, state))]
    {
      effects := effects + [MotorCommand(op, state, cfg.httpMethod, BlindsUrl(cfg, op, state))];
    }

    /** setTargetPosition: a request for `pos` from HomeKit, acknowledged at once. */
    method SetTargetPosition(pos: Percent)
      requires Valid()
      modifies this
      ensures Valid() && State() == Request(cfg, old(State()), pos)
    {
      if lastPosition != pos {
        SetPowerState(POWER_ON);
        startTimeout := None;
        if stopTimeout.None? {
          startTimeout := Some(Timer(DEBOUNCE_DELAY, pos));
        }
      }
      MotionProperties.RequestKeepsInv(cfg, old(State()), pos);
    }

    /** The start timer's callback. */
    method StartTimerFires()
      requires Valid() && startTimeout.Some?
      modifies this
      ensures Valid() && State() == StartFired(cfg, old(State()))
    {
      ghost var before := State();
      var pos := startTimeout.value.pos;
      startTimeout := None;
      currentTargetPosition := pos;
      storedPosition := currentTargetPosition;
      effects := effects + [Persist(currentTargetPosition)];
      var opening := currentTargetPosition >= lastPosition;
      var duration := Duration(cfg, lastPosition, currentTargetPosition);
      effects := effects + [Notify(PositionState, if opening then INCREASING else DECREASING)];
      currentPositionState := if opening then INCREASING else DECREASING;
      OperateBlinds(Start, currentPositionState);
      stopTimeout := Some(Timer(duration, pos));
      assert State() == StartFired(cfg, before);
      MotionProperties.StartFiredKeepsInv(cfg, before);
    }

    /** The stop timer's callback. */
    method StopTimerFires()
      requires Valid() && stopTimeout.Some?
      modifies this
      ensures Valid() && State() == StopFired(cfg, old(State()))
    {
      var pos := stopTimeout.value.pos;
      stopTimeout := None;
      OperateBlinds(Stop, currentPositionState);
      effects := effects + [Notify(PositionState, STOPPED)];
      currentPositionState := STOPPED;
      effects := effects + [Notify(CurrentPosition, pos)];
      lastPosition := pos;
      powerOffTimers := powerOffTimers + 1;
      MotionProperties.StopFiredKeepsInv(cfg, old(State()));
    }

    /** A power-off timer's callback. */
    method PowerOffTimerFires()
      requires Valid() && powerOffTimers > 0
      modifies this
      ensures Valid() && State() == PowerOffFired(cfg, old(State()))
    {
      powerOffTimers := powerOffTimers - 1;
      SetPowerState(POWER_OFF);
    }

    /** The completion of the outstanding power command at `index`; the reply
        is not consulted. */
    method PowerRequestCompletes(index: nat, reply: Reply)
      requires Valid() && index < |pendingPower|
      modifies this
      ensures Valid() && State() == PowerAcked(old(State()), index, reply)
    {
      powerState := pendingPower[index];
      pendingPower := pendingPower[..index] + pendingPower[index + 1..];
      MotionProperties.PowerAckedKeepsInv(cfg, old(State()), index, reply);
    }
  }
}
