/** The motion-control state machine of the accessory, as values: one state record
    and one transition function per event that the JavaScript event loop delivers
    (a HomeKit request, a timer firing, a power command completing). */
module Motion {
  import opened Commands

  /** The debounce delay of the start timer; fixed, unlike the configured startDelay. */
  const DEBOUNCE_DELAY: nat := 1000

  /** An armed timer: its delay and the requested position its callback captured. */
  datatype Timer = Timer(delay: nat, pos: Percent)

  /** The HomeKit characteristics the accessory pushes updates to. */
  datatype Characteristic = CurrentPosition | PositionState

  /** What the accessory does to the outside world, in order: commands handed to
      the HTTP transport, writes to storage, and characteristic updates. */
  datatype Effect =
    | PowerCommand(state: int, verb: string, url: string)
    | MotorCommand(op: Operation, state: int, verb: string, url: string)
    | Persist(pos: Percent)
    | Notify(characteristic: Characteristic, value: int)

  /** The accessory's state: the source's fields, the pending timers, the power
      commands still awaiting their completion, the stored position and the
      effects so far. */
  datatype Blind = Blind(
    powerState: int,
    lastPosition: Percent,
    currentPositionState: int,
    currentTargetPosition: Percent,
    startTimeout: Option<Timer>,
    stopTimeout: Option<Timer>,
    powerOffTimers: nat,  // each one fires 1000 ms after the stop it follows
    pendingPower: seq<int>,
    storedPosition: Percent,
    effects: seq<Effect>)

  /** The state right after construction, from the position loaded from storage. */
  function Initial(position: Percent): (b: Blind)
  {
    Blind(POWER_OFF, position, STOPPED, position, None, None, 0, [], position, [])
  }

  /** Nothing pending: no timer armed and no power command outstanding. */
  predicate Idle(b: Blind)
  {
    b.startTimeout.None? && b.stopTimeout.None? && b.powerOffTimers == 0 && b.pendingPower == []
  }

  /** Opening (INCREASING) iff the target is at or above the settled position. */
  function Direction(from: Percent, to: Percent): (state: int)
    ensures state == INCREASING <==> to >= from
    ensures state == DECREASING <==> to < from
  {
    if to >= from then INCREASING else DECREASING
  }

  function StartCommand(cfg: Config, state: int): (e: Effect)
  {
    MotorCommand(Start, state, cfg.httpMethod, BlindsUrl(cfg, Start, state))
  }

  function StopCommand(cfg: Config, state: int): (e: Effect)
  {
    MotorCommand(Stop, state, cfg.httpMethod, BlindsUrl(cfg, Stop, state))
  }

  /** setPowerState: a command only when the recorded state differs; the recorded
      state changes in the completion, which in debug mode runs at once. */
  function SwitchPower(cfg: Config, b: Blind, state: int): (r: Blind)
    ensures b.powerState == state ==> r == b
    ensures b.powerState != state ==>
      r.effects == b.effects + [PowerCommand(state, cfg.httpMethod, PowerUrl(cfg, state))]
    ensures b.powerState != state && cfg.debugMode ==>
      r.powerState == state && r.pendingPower == b.pendingPower
    ensures b.powerState != state && !cfg.debugMode ==>
      r.powerState == b.powerState && r.pendingPower == b.pendingPower + [state]
    ensures r.(powerState := b.powerState, pendingPower := b.pendingPower, effects := b.effects) == b
  {
    if b.powerState == state then b
    else
      var sent := b.(effects := b.effects + [PowerCommand(state, cfg.httpMethod, PowerUrl(cfg, state))]);
      if cfg.debugMode then sent.(powerState := state)
      else sent.(pendingPower := sent.pendingPower + [state])
  }

  /** setTargetPosition: ignore the settled position; otherwise power on, cancel
      the pending start and, unless the motor runs, arm a fresh 1000 ms start. */
  function Request(cfg: Config, b: Blind, pos: Percent): (r: Blind)
    ensures pos == b.lastPosition ==> r == b
    ensures pos != b.lastPosition && b.stopTimeout.None? ==>
      r.startTimeout == Some(Timer(DEBOUNCE_DELAY, pos))
    ensures pos != b.lastPosition && b.stopTimeout.Some? ==> r.startTimeout.None?
    ensures pos != b.lastPosition ==>
      r.effects == SwitchPower(cfg, b, POWER_ON).effects
      && r.powerState == SwitchPower(cfg, b, POWER_ON).powerState
      && r.pendingPower == SwitchPower(cfg, b, POWER_ON).pendingPower
    ensures r.lastPosition == b.lastPosition && r.currentTargetPosition == b.currentTargetPosition
    ensures r.currentPositionState == b.currentPositionState && r.stopTimeout == b.stopTimeout
    ensures r.storedPosition == b.storedPosition && r.powerOffTimers == b.powerOffTimers
  {
    if pos == b.lastPosition then b
    else
      var powered := SwitchPower(cfg, b, POWER_ON);
      var cleared := powered.(startTimeout := None);
      if cleared.stopTimeout.None? then cleared.(startTimeout := Some(Timer(DEBOUNCE_DELAY, pos)))
      else cleared
  }

  /** The start timer's callback: commit and persist the target, then start the
      motor in the direction of travel and arm the stop timer for the move's duration. */
  function StartFired(cfg: Config, b: Blind): (r: Blind)
    requires b.startTimeout.Some?
    ensures var pos := b.startTimeout.value.pos;
      && r.currentTargetPosition == pos && r.storedPosition == pos
      && r.currentPositionState == (if pos >= b.lastPosition then INCREASING else DECREASING)
      && r.startTimeout.None?
      && r.stopTimeout == Some(Timer(Duration(cfg, b.lastPosition, pos), pos))
      && r.effects == b.effects + [Persist(pos)]
                               + [Notify(PositionState, r.currentPositionState)]
                               + [MotorCommand(Start, r.currentPositionState, cfg.httpMethod,
                                               if pos >= b.lastPosition then cfg.openStartUrl else cfg.closeStartUrl)]
    ensures r.lastPosition == b.lastPosition && r.powerState == b.powerState
    ensures r.pendingPower == b.pendingPower && r.powerOffTimers == b.powerOffTimers
  {
    var pos := b.startTimeout.value.pos;
    var state := Direction(b.lastPosition, pos);
    b.(startTimeout := None,
       currentTargetPosition := pos,
       storedPosition := pos,
       currentPositionState := state,
       effects := b.effects + [Persist(pos)] + [Notify(PositionState, state)] + [StartCommand(cfg, state)],
       stopTimeout := Some(Timer(Duration(cfg, b.lastPosition, pos), pos)))
  }

  /** The stop timer's callback: stop the motor for the direction it was started
      in, report STOPPED, adopt the position and arm the power-off timer. */
  function StopFired(cfg: Config, b: Blind): (r: Blind)
    requires b.stopTimeout.Some?
    ensures var pos := b.stopTimeout.value.pos;
      && r.stopTimeout.None? && r.currentPositionState == STOPPED && r.lastPosition == pos
      && r.powerOffTimers == b.powerOffTimers + 1
      && r.effects == b.effects + [MotorCommand(Stop, b.currentPositionState, cfg.httpMethod,
                                                if b.currentPositionState == INCREASING then cfg.openStopUrl
                                                else cfg.closeStopUrl)]
                               + [Notify(PositionState, STOPPED)]
                               + [Notify(CurrentPosition, pos)]
    ensures r.currentTargetPosition == b.currentTargetPosition && r.storedPosition == b.storedPosition
    ensures r.startTimeout == b.startTimeout && r.powerState == b.powerState
    ensures r.pendingPower == b.pendingPower
  {
    var pos := b.stopTimeout.value.pos;
    b.(stopTimeout := None,
       effects := b.effects + [StopCommand(cfg, b.currentPositionState)]
                            + [Notify(PositionState, STOPPED)] + [Notify(CurrentPosition, pos)],
       currentPositionState := STOPPED,
       lastPosition := pos,
       powerOffTimers := b.powerOffTimers + 1)
  }

  /** A power-off timer fires: switch the power supply off. */
  function PowerOffFired(cfg: Config, b: Blind): (r: Blind)
    requires b.powerOffTimers > 0
    ensures r.powerOffTimers == b.powerOffTimers - 1
    ensures b.powerState == POWER_OFF ==> r.effects == b.effects && r.pendingPower == b.pendingPower
    ensures b.powerState != POWER_OFF ==>
      r.effects == b.effects + [PowerCommand(POWER_OFF, cfg.httpMethod, cfg.powerOffUrl)]
    ensures b.powerState == POWER_OFF ==> r.powerState == POWER_OFF
    ensures b.powerState != POWER_OFF && cfg.debugMode ==>
      r.powerState == POWER_OFF && r.pendingPower == b.pendingPower
    ensures b.powerState != POWER_OFF && !cfg.debugMode ==>
      r.powerState == b.powerState && r.pendingPower == b.pendingPower + [POWER_OFF]
    ensures r.lastPosition == b.lastPosition && r.currentTargetPosition == b.currentTargetPosition
    ensures r.currentPositionState == b.currentPositionState && r.storedPosition == b.storedPosition
    ensures r.startTimeout == b.startTimeout && r.stopTimeout == b.stopTimeout
  {
    SwitchPower(cfg, b.(powerOffTimers := b.powerOffTimers - 1), POWER_OFF)
  }

  /** The completion of the power command at `index` of the outstanding ones: it
      records the requested state whatever the reply said. */
  function PowerAcked(b: Blind, index: nat, reply: Reply): (r: Blind)
    requires index < |b.pendingPower|
    ensures r.powerState == b.pendingPower[index]
    ensures |r.pendingPower| == |b.pendingPower| - 1
    ensures multiset(r.pendingPower) + multiset{b.pendingPower[index]} == multiset(b.pendingPower)
    ensures forall k | 0 <= k < |r.pendingPower| ::
      r.pendingPower[k] == (if k < index then b.pendingPower[k] else b.pendingPower[k + 1])
    ensures r.(powerState := b.powerState, pendingPower := b.pendingPower) == b
  {
    var rest := b.pendingPower[..index] + b.pendingPower[index + 1..];
    assert b.pendingPower == b.pendingPower[..index] + [b.pendingPower[index]] + b.pendingPower[index + 1..];
    b.(powerState := b.pendingPower[index], pendingPower := rest)
  }

  /** The motor commands of an effect log, in order. */
  function Motors(effects: seq<Effect>): (ms: seq<Effect>)
    ensures forall k | 0 <= k < |ms| :: ms[k].MotorCommand?
    decreases |effects|
  {
    if effects == [] then []
    else
      var last := effects[|effects| - 1];
      Motors(effects[..|effects| - 1]) + (if last.MotorCommand? then [last] else [])
  }

  /** A motor log made of complete runs: each start followed by the stop for the
      same direction, with the URLs operateBlinds picks for it. */
  predicate Paired(cfg: Config, ms: seq<Effect>)
    decreases |ms|
  {
    if ms == [] then true
    else
      |ms| >= 2 && ms[|ms| - 1].MotorCommand?
      && var state := ms[|ms| - 1].state;
      && (state == INCREASING || state == DECREASING)
      && ms[|ms| - 2] == StartCommand(cfg, state)
      && ms[|ms| - 1] == StopCommand(cfg, state)
      && Paired(cfg, ms[..|ms| - 2])
  }

  /** While the stop timer is armed: the motor runs towards the timer's position
      in the recorded direction, and its start is the last motor command sent. */
  predicate Moving(cfg: Config, b: Blind)
    requires b.stopTimeout.Some?
  {
    var pos := b.stopTimeout.value.pos;
    var state := Direction(b.lastPosition, pos);
    var ms := Motors(b.effects);
    && pos != b.lastPosition
    && b.currentTargetPosition == pos
    && b.currentPositionState == state
    && b.stopTimeout.value.delay == Duration(cfg, b.lastPosition, pos)
    && |ms| > 0 && ms[|ms| - 1] == StartCommand(cfg, state)
    && Paired(cfg, ms[..|ms| - 1])
  }

  /** The invariant every reachable state keeps. */
  predicate Inv(cfg: Config, b: Blind)
  {
    && (b.powerState == POWER_OFF || b.powerState == POWER_ON)
    && (forall k | 0 <= k < |b.pendingPower| :: b.pendingPower[k] == POWER_OFF || b.pendingPower[k] == POWER_ON)
    && b.storedPosition == b.currentTargetPosition
    && !(b.startTimeout.Some? && b.stopTimeout.Some?)
    && (b.startTimeout.Some? ==>
          b.startTimeout.value.delay == DEBOUNCE_DELAY && b.startTimeout.value.pos != b.lastPosition)
    && (b.stopTimeout.None? ==>
          b.currentPositionState == STOPPED && b.currentTargetPosition == b.lastPosition
          && Paired(cfg, Motors(b.effects)))
    && (b.stopTimeout.Some? ==> Moving(cfg, b))
  }

  /** The events the environment can deliver. */
  datatype Event =
    | Requested(pos: Percent)
    | StartTimerFired
    | StopTimerFired
    | PowerOffTimerFired
    | PowerReplied(index: nat, reply: Reply)

  /** A timer fires only while armed; a completion exists only for an outstanding command. */
  predicate Enabled(b: Blind, e: Event)
  {
    match e
    case Requested(_) => true
    case StartTimerFired => b.startTimeout.Some?
    case StopTimerFired => b.stopTimeout.Some?
    case PowerOffTimerFired => b.powerOffTimers > 0
    case PowerReplied(index, _) => index < |b.pendingPower|
  }

  /** One event; an event that is not enabled changes nothing. */
  function Step(cfg: Config, b: Blind, e: Event): (r: Blind)
  {
    if !Enabled(b, e) then b
    else
      match e
      case Requested(pos) => Request(cfg, b, pos)
      case StartTimerFired => StartFired(cfg, b)
      case StopTimerFired => StopFired(cfg, b)
      case PowerOffTimerFired => PowerOffFired(cfg, b)
      case PowerReplied(index, reply) => PowerAcked(b, index, reply)
  }

  /** A sequence of events, in order. */
  function Run(cfg: Config, b: Blind, events: seq<Event>): (r: Blind)
    decreases |events|
  {
    if events == [] then b else Run(cfg, Step(cfg, b, events[0]), events[1..])
  }

  /** A burst of requests, in order. */
  function Requests(cfg: Config, b: Blind, positions: seq<Percent>): (r: Blind)
    decreases |positions|
  {
    if positions == [] then b
    else Request(cfg, Requests(cfg, b, positions[..|positions| - 1]), positions[|positions| - 1])
  }

  /** The last position in a burst that differs from the settled position. */
  function LastMove(positions: seq<Percent>, settled: Percent): (r: Option<Percent>)
    ensures r.Some? ==> r.value != settled
    ensures r.Some? ==> exists k | 0 <= k < |positions| ::
      positions[k] == r.value && forall j | k < j < |positions| :: positions[j] == settled
    ensures r.None? ==> forall k | 0 <= k < |positions| :: positions[k] == settled
    decreases |positions|
  {
    if positions == [] then None
    else if positions[|positions| - 1] != settled then Some(positions[|positions| - 1])
    else LastMove(positions[..|positions| - 1], settled)
  }
}
