# Z-Way Velux blinds: the motion-control state machine

This project models the HomeBridge accessory `ZWayVeluxAccessory` (`index.js`). The accessory drives a
Velux window covering through Z-Way HTTP URLs. A HomeKit target-position request (0 to 100 percent)
becomes a timed sequence of commands:

1. switch the main power supply on;
2. after a fixed 1000 ms debounce, commit and persist the target, then start the motor in the direction of travel;
3. after `startDelay + durationPerPercent * distance (+ endPositionDelay at 0 or 100)` ms, stop the motor
   and adopt the new position;
4. 1000 ms later, switch the power off.

All callbacks run one at a time on the JavaScript event loop, so the accessory is a sequential state
machine. The model has three layers:

- `Commands` (commands.dfy): the configuration, the URL choice of `operateBlinds` and `setPowerState`,
  the duration arithmetic, and the transport's "status 200 only" success rule.
- `Motion` (motion.dfy): the state as a value (`Blind`), with one transition function per event the
  environment delivers: a request, the start, stop and power-off timers firing, and a power command
  completing. Armed timers are pending-event fields. A timer holds its delay and the position its
  closure captured. Power-off timers are a count, because their handles are never stored. Power
  commands awaiting completion form a list, and they may complete in any order. Everything the
  accessory does to the outside world goes into an effect log: commands handed to the HTTP transport,
  writes to storage, and HomeKit characteristic updates. `Inv` is the invariant of every reachable
  state. `Step` and `Run` apply events in order; an event that is not enabled (a timer that is not
  armed) changes nothing.
- `MotionProperties` (properties.dfy): the proofs. Every event keeps `Inv`. In every reachable state,
  each motor start is followed by the stop for the same direction, and at most one motion run is in
  flight. A burst of requests leaves one start timer, carrying the last request that differs from the settled position. Requests made while
  the motor runs are dropped. A single request goes through the full command sequence. Two orderings
  the source allows are also proved (see below).
- `Accessory` (accessory.dfy): the class `ZWayVeluxAccessory` with the source's fields, updated in
  place. Each event handler is proved to move the object exactly as the matching `Motion` transition
  and to keep `Inv`. `OperateBlinds` is the helper they share: it only appends one motor command.

The model follows the code as written. Behaviours worth noting:

- The power completion in `setPowerState` ignores its error argument. `powerState` therefore becomes
  the requested state for a reply with any status code, 200 or not (`PowerAckIgnoresReply`). A request
  that fails with no response at all never reaches the completion (see the index.js:170 line under
  "## Left out").
- Because `powerState` changes only on completion, a second request before the power-on completes
  sends a second power-on command (`PowerOnRepeatedBeforeReply`).
- The power-off timer armed at the end of a motion is never cancelled. A request within that second
  arms a 1000 ms start timer, and that timer fires after the power-off timer. So the power goes off
  and the motor is then started with no power-on in between (`PowerOffCanPrecedeMotorStart`).
  "Power is on exactly while a motion is in flight" is therefore not an invariant of the code.
- A request for the settled position is ignored outright, so it does not cancel a move already armed
  by an earlier request. The blind still moves to that earlier target (`ReturnToSettledKeepsPendingMove`).
- The debounce delay is the constant 1000 ms, not the configured `startDelay`.

## Model

| member | source | states |
|---|---|---|
| `Commands.BlindsUrlChoice` | index.js:152-155 | `operateBlinds` requests the open start or open stop URL when the state is INCREASING, and the close start or close stop URL for any other state, STOPPED included |
| `Commands.PowerUrl` | index.js:140-143 | state 1 requests the power-on URL; any other state the power-off URL |
| `Commands.Distance` | index.js:104 | the distance is the absolute difference of the two positions (one plus the distance gives the other), at most 100, and zero exactly when they are equal |
| `Commands.Duration` | index.js:103-106 | a move lasts at least `startDelay` and at most `startDelay + 100 * durationPerPercent + endPositionDelay`; it is `startDelay` plus `durationPerPercent` per percent travelled, plus `endPositionDelay` exactly when the target is 0 or 100; a full 0-to-100 or 100-to-0 move takes the maximum |
| `Commands.Succeeded` | index.js:167 | a reply counts as a success only with status 200 and no error, and every such reply does |
| `Commands.DurationGrowsWithDistance` | index.js:104-106 | for the same target, a longer distance never gives a shorter duration |
| `Commands.DurationSymmetricAwayFromEnds` | index.js:104-106 | between two positions other than 0 and 100, a move takes as long as the move back |
| `Commands.DurationEndDelay` | index.js:105-106 | of two moves over the same distance, the one ending at 0 or 100 takes exactly `endPositionDelay` longer than one ending elsewhere |
| `Commands.DurationExamples` | index.js:106 | with 1000/20/500 ms, 30 to 100 takes 2900 ms and 30 to 90 takes 2200 ms |
| `Motion.Direction` | index.js:103 | opening (INCREASING) exactly when the target is at or above the settled position, else DECREASING |
| `Motion.SwitchPower` | index.js:140-150 | no command when the recorded power state already matches; otherwise exactly one power command with the on or off URL; the recorded state changes at once in debug mode, otherwise only when the command completes; nothing else changes |
| `Motion.Request` | index.js:85-138 | a request for the settled position changes nothing; otherwise power on is requested and the pending start is cancelled; a new 1000 ms start carrying `pos` is armed only if no stop timer is armed; positions, position state, stop timer, storage and power-off timers are untouched |
| `Motion.StartFired` | index.js:100-118 | the target becomes `pos` and is persisted before any motor command; the position state is INCREASING iff `pos >= lastPosition`; exactly one start command follows, with the open or close start URL; the stop timer is armed with `Duration(lastPosition, pos)` |
| `Motion.StopFired` | index.js:118-133 | the stop timer is cleared; the stop command goes out for the direction recorded at the start (open stop after opening, close stop after closing); the state becomes STOPPED and `lastPosition` becomes `pos`; one more power-off timer is armed |
| `Motion.PowerOffFired` | index.js:129-131 | a power-off timer fires: one power-off command unless the recorded power state is already off; when it is sent, the state is recorded as off at once in debug mode and otherwise queued as an outstanding completion; no position field or timer changes |
| `Motion.PowerAcked` | index.js:143-148 | the completion of an outstanding power command records that command's state and removes it from the outstanding ones, keeping the others in order; nothing else changes |
| `MotionProperties.PowerAckIgnoresReply` | index.js:143-148 | a completion whose reply is not a success (any status code other than 200) advances the recorded power state exactly as a successful one does |
| `Motion.LastMove` | index.js:88-100 | the position a burst of requests leaves on the start timer: one that differs from the settled position and after which every request asks for the settled position, or none when every request does |
| `MotionProperties.InitialKeepsInv` | index.js:36-44 | the initial state (power off, STOPPED, target equal to the loaded position) satisfies the invariant and has nothing pending |
| `MotionProperties.SwitchPowerKeepsInv` | index.js:140-150 | switching power keeps the invariant and sends no motor command |
| `MotionProperties.RequestKeepsInv` | index.js:85-138 | a request keeps the invariant and sends no motor command |
| `MotionProperties.StartFiredKeepsInv` | index.js:100-118 | the start callback keeps the invariant: the stop timer is armed, no start is armed, and the last motor command is the start for the recorded direction |
| `MotionProperties.StopFiredKeepsInv` | index.js:118-133 | the stop callback keeps the invariant: the motor log is complete start/stop pairs again and the settled position equals the target |
| `MotionProperties.PowerOffFiredKeepsInv` | index.js:129-131 | the power-off callback keeps the invariant |
| `MotionProperties.PowerAckedKeepsInv` | index.js:143-148 | a power completion keeps the invariant |
| `MotionProperties.StepKeepsInv` | index.js:85-150 | every event keeps the invariant |
| `MotionProperties.RunKeepsInv` | index.js:85-150 | every sequence of events keeps the invariant |
| `MotionProperties.ReachableStates` | index.js:85-150 | after construction and any events: storage holds the target; a start and a stop timer are never both armed; when stopped, the current position equals the target and every motor start has been followed by the stop for the same direction; while moving, exactly one start is unmatched, it is the last motor command, and it matches the reported direction |
| `MotionProperties.BurstArmsOneStart` | index.js:88-100 | a burst of requests with no stop timer armed leaves exactly one start timer, carrying the last position that differs from the settled one (or the old one if none differs); it sends no motor command and changes no position field |
| `MotionProperties.ReturnToSettledKeepsPendingMove` | index.js:88-100 | with no stop timer armed, a request for another position followed by a request for the settled position leaves the start timer armed for the other position |
| `MotionProperties.RequestsWhileMoving` | index.js:91-97 | requests while the stop timer is armed arm no start, keep the stop timer, change no position field and send no motor command |
| `MotionProperties.SingleMotionRun` | index.js:85-150 | from idle with power off, one request with every timer firing and every power command completing emits exactly: power on, persist, state update, start, stop, two updates, power off; afterwards current and target position are the request, storage holds it, the state is STOPPED, the power is off and nothing is pending |
| `MotionProperties.RetargetWhileMovingIsDropped` | index.js:97-133 | a second target requested while the motor runs is dropped: the run ends at the first target with exactly one start and one stop for one direction |
| `MotionProperties.PowerOnRepeatedBeforeReply` | index.js:140-148 | outside debug mode, two requests before the power-on completes send two power-on commands, and the start timer carries the second request |
| `MotionProperties.PowerOffCanPrecedeMotorStart` | index.js:128-131 | after a motion, a request followed by the uncancelled power-off timer and then the start timer switches the power off and then starts the motor, with no power-on in between |
| `Accessory.ZWayVeluxAccessory.constructor` | index.js:36-44 | power off, STOPPED, settled position and target both equal to the loaded position, nothing pending, invariant holds |
| `Accessory.ZWayVeluxAccessory.GetCurrentPosition` | index.js:70-73 | returns `lastPosition`, which equals the target whenever no stop timer is armed |
| `Accessory.ZWayVeluxAccessory.GetPositionState` | index.js:75-78 | returns `currentPositionState`, which is STOPPED exactly when no stop timer is armed |
| `Accessory.ZWayVeluxAccessory.GetTargetPosition` | index.js:80-83 | returns `currentTargetPosition`, which is the value in storage |
| `Accessory.ZWayVeluxAccessory.SetPowerState` | index.js:140-150 | moves the object as `Motion.SwitchPower` and keeps the invariant |
| `Accessory.ZWayVeluxAccessory.OperateBlinds` | index.js:152-159 | hands exactly one motor command, with the URL for the operation and state, to the transport, and changes nothing else |
| `Accessory.ZWayVeluxAccessory.SetTargetPosition` | index.js:85-138 | moves the object as `Motion.Request` and keeps the invariant |
| `Accessory.ZWayVeluxAccessory.StartTimerFires` | index.js:100-118 | moves the object as `Motion.StartFired` and keeps the invariant |
| `Accessory.ZWayVeluxAccessory.StopTimerFires` | index.js:118-133 | moves the object as `Motion.StopFired` and keeps the invariant |
| `Accessory.ZWayVeluxAccessory.PowerOffTimerFires` | index.js:129-131 | moves the object as `Motion.PowerOffFired` and keeps the invariant |
| `Accessory.ZWayVeluxAccessory.PowerRequestCompletes` | index.js:143-148 | moves the object as `Motion.PowerAcked`, whatever the reply, and keeps the invariant |

## Left out

- HomeBridge registration, the WindowCovering service and `getServices` (index.js:4-10, 47-67, 179-181): these are host-framework glue. `setCharacteristic` calls appear only as `Notify` entries in the effect log.
- node-persist initialisation and loading (index.js:15-20, 40): storage is the single field `storedPosition`. The loaded position is a constructor parameter in 0..100; a missing stored value (`undefined`) is not modelled.
- The HTTP request itself (index.js:163-173): a command is an entry in the effect log plus, for power commands, a later completion event. The effect log records every command handed to `httpRequest`; in debug mode none of them reaches the network.
- The network-error path at index.js:170: on an error with no response it reads `response.statusCode` of an undefined `response` and throws, so the completion never runs and `powerState` is not advanced. The model has no such event: every completion in it carries a reply and records the requested state.
- `Commands.Succeeded` (index.js:167) decides only what is logged. No state depends on it, so no property beyond its own contract and `PowerAckIgnoresReply` is stated about it.
- The completion of a motor command (index.js:154-158) only logs, so it is not an event of the model.
- Wall-clock time: timers are events that the environment may fire in any order, so the model also allows orders that real delays would rule out. Delays are kept as numbers on the timers.
- `clearTimeout` on a start timer that has already fired is a no-op in JavaScript. The model drops a start timer from `startTimeout` when it fires, which is equivalent.
- Logging throughout, and configuration loading: the `"GET"` default for `httpMethod` (index.js:33), the `false` default for `debugMode`, and undefined or non-numeric configuration values. The configuration is a value with natural-number durations and opaque URL strings.
- The requested position is assumed to lie in 0..100, the range HomeKit enforces for TargetPosition; the source does not check it.
