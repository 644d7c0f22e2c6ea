/** What the motion-control state machine guarantees: the invariant every event
    keeps, the debounce of bursts of requests, requests ignored while the motor
    runs, a complete motion run, and two orderings the source lets through. */
module MotionProperties {
  import opened Commands
  import opened Motion

  lemma MotorsSnoc(effects: seq<Effect>, e: Effect)
    ensures Motors(effects + [e]) == Motors(effects) + (if e.MotorCommand? then [e] else [])
  {
    assert (effects + [e])[..|effects|] == effects;
  }

  /** A complete run appended to complete runs is still complete runs. */
  lemma PairedExtend(cfg: Config, ms: seq<Effect>, state: int)
    requires Paired(cfg, ms)
    requires state == INCREASING || state == DECREASING
    ensures Paired(cfg, ms + [StartCommand(cfg, state)] + [StopCommand(cfg, state)])
  {
    var ext := ms + [StartCommand(cfg, state)] + [StopCommand(cfg, state)];
    assert ext[..|ext| - 2] == ms;
  }

  lemma InitialKeepsInv(cfg: Config, position: Percent)
    ensures Inv(cfg, Initial(position)) && Idle(Initial(position))
  {
  }

  /** The motor log of a state alone decides whether it is Moving. */
  lemma MovingFromMotors(cfg: Config, b: Blind, r: Blind)
    requires b.stopTimeout.Some? && Moving(cfg, b)
    requires r.stopTimeout == b.stopTimeout && r.lastPosition == b.lastPosition
    requires r.currentTargetPosition == b.currentTargetPosition
    requires r.currentPositionState == b.currentPositionState
    requires Motors(r.effects) == Motors(b.effects)
    ensures Moving(cfg, r)
  {
  }

  lemma SwitchPowerKeepsInv(cfg: Config, b: Blind, state: int)
    requires Inv(cfg, b)
    requires state == POWER_OFF || state == POWER_ON
    ensures Inv(cfg, SwitchPower(cfg, b, state))
    ensures Motors(SwitchPower(cfg, b, state).effects) == Motors(b.effects)
  {
    var r := SwitchPower(cfg, b, state);
    if b.powerState != state {
      MotorsSnoc(b.effects, PowerCommand(state, cfg.httpMethod, PowerUrl(cfg, state)));
    }
    if b.stopTimeout.Some? {
      MovingFromMotors(cfg, b, r);
    } else {
      assert Motors(r.effects) == Motors(b.effects);
    }
  }

  lemma RequestMotors(cfg: Config, b: Blind, pos: Percent)
    ensures Motors(Request(cfg, b, pos).effects) == Motors(b.effects)
  {
    if pos != b.lastPosition && b.powerState != POWER_ON {
      MotorsSnoc(b.effects, PowerCommand(POWER_ON, cfg.httpMethod, PowerUrl(cfg, POWER_ON)));
    }
  }

  lemma RequestKeepsInv(cfg: Config, b: Blind, pos: Percent)
    requires Inv(cfg, b)
    ensures Inv(cfg, Request(cfg, b, pos))
    ensures Motors(Request(cfg, b, pos).effects) == Motors(b.effects)
  {
    if pos != b.lastPosition {
      SwitchPowerKeepsInv(cfg, b, POWER_ON);
    }
  }

  lemma StartFiredMotors(cfg: Config, b: Blind)
    requires b.startTimeout.Some?
    ensures Motors(StartFired(cfg, b).effects)
      == Motors(b.effects) + [StartCommand(cfg, StartFired(cfg, b).currentPositionState)]
  {
    var r := StartFired(cfg, b);
    var state := r.currentPositionState;
    var e1 := b.effects + [Persist(r.currentTargetPosition)];
    var e2 := e1 + [Notify(PositionState, state)];
    MotorsSnoc(b.effects, Persist(r.currentTargetPosition));
    MotorsSnoc(e1, Notify(PositionState, state));
    MotorsSnoc(e2, StartCommand(cfg, state));
    assert r.effects == e2 + [StartCommand(cfg, state)];
  }

  lemma StartFiredKeepsInv(cfg: Config, b: Blind)
    requires Inv(cfg, b) && b.startTimeout.Some?
    ensures Inv(cfg, StartFired(cfg, b))
  {
    var r := StartFired(cfg, b);
    StartFiredMotors(cfg, b);
    assert Motors(r.effects)[..|Motors(r.effects)| - 1] == Motors(b.effects);
  }

  lemma StopFiredMotors(cfg: Config, b: Blind)
    requires b.stopTimeout.Some?
    ensures Motors(StopFired(cfg, b).effects) == Motors(b.effects) + [StopCommand(cfg, b.currentPositionState)]
  {
    var state := b.currentPositionState;
    var pos := b.stopTimeout.value.pos;
    var e1 := b.effects + [StopCommand(cfg, state)];
    var e2 := e1 + [Notify(PositionState, STOPPED)];
    MotorsSnoc(b.effects, StopCommand(cfg, state));
    MotorsSnoc(e1, Notify(PositionState, STOPPED));
    MotorsSnoc(e2, Notify(CurrentPosition, pos));
    assert StopFired(cfg, b).effects == e2 + [Notify(CurrentPosition, pos)];
  }

  lemma StopFiredKeepsInv(cfg: Config, b: Blind)
    requires Inv(cfg, b) && b.stopTimeout.Some?
    ensures Inv(cfg, StopFired(cfg, b))
  {
    var state := b.currentPositionState;
    var ms := Motors(b.effects);
    var pre := ms[..|ms| - 1];
    assert ms == pre + [StartCommand(cfg, state)];
    StopFiredMotors(cfg, b);
    PairedExtend(cfg, pre, state);
  }

  lemma PowerOffFiredKeepsInv(cfg: Config, b: Blind)
    requires Inv(cfg, b) && b.powerOffTimers > 0
    ensures Inv(cfg, PowerOffFired(cfg, b))
  {
    SwitchPowerKeepsInv(cfg, b.(powerOffTimers := b.powerOffTimers - 1), POWER_OFF);
  }

  lemma PowerAckedKeepsInv(cfg: Config, b: Blind, index: nat, reply: Reply)
    requires Inv(cfg, b) && index < |b.pendingPower|
    ensures Inv(cfg, PowerAcked(b, index, reply))
  {
    var r := PowerAcked(b, index, reply);
    forall k | 0 <= k < |r.pendingPower|
      ensures r.pendingPower[k] == POWER_OFF || r.pendingPower[k] == POWER_ON
    {
      if k < index {
        assert r.pendingPower[k] == b.pendingPower[k];
      } else {
        assert r.pendingPower[k] == b.pendingPower[k + 1];
      }
    }
  }

  lemma StepKeepsInv(cfg: Config, b: Blind, e: Event)
    requires Inv(cfg, b)
    ensures Inv(cfg, Step(cfg, b, e))
  {
    if Enabled(b, e) {
      match e
      case Requested(pos) => RequestKeepsInv(cfg, b, pos);
      case StartTimerFired => StartFiredKeepsInv(cfg, b);
      case StopTimerFired => StopFiredKeepsInv(cfg, b);
      case PowerOffTimerFired => PowerOffFiredKeepsInv(cfg, b);
      case PowerReplied(index, reply) => PowerAckedKeepsInv(cfg, b, index, reply);
    }
  }

  lemma {:induction false} RunKeepsInv(cfg: Config, b: Blind, events: seq<Event>)
    requires Inv(cfg, b)
    ensures Inv(cfg, Run(cfg, b, events))
    decreases |events|
  {
    if events != [] {
      StepKeepsInv(cfg, b, events[0]);
      RunKeepsInv(cfg, Step(cfg, b, events[0]), events[1..]);
    }
  }

  /** Whatever the environment does after construction: the store holds the
      committed target; while stopped, the current position is that target and
      every motor start has been followed by the stop for the same direction;
      while moving, exactly one start is unmatched and it is the last motor
      command, in the direction currentPositionState reports. */
  lemma ReachableStates(cfg: Config, position: Percent, events: seq<Event>)
    ensures var r := Run(cfg, Initial(position), events);
      var ms := Motors(r.effects);
      && r.storedPosition == r.currentTargetPosition
      && !(r.startTimeout.Some? && r.stopTimeout.Some?)
      && (r.stopTimeout.None? ==>
            r.currentPositionState == STOPPED && r.lastPosition == r.currentTargetPosition
            && Paired(cfg, ms))
      && (r.stopTimeout.Some? ==>
            (r.currentPositionState == INCREASING || r.currentPositionState == DECREASING)
            && |ms| > 0 && ms[|ms| - 1] == StartCommand(cfg, r.currentPositionState)
            && Paired(cfg, ms[..|ms| - 1]))
  {
    InitialKeepsInv(cfg, position);
    RunKeepsInv(cfg, Initial(position), events);
  }

  /** A burst of requests while the motor is idle leaves at most one start timer,
      carrying the last requested position that differs from the settled one;
      no motor command is sent and no position field changes. */
  lemma {:induction false} BurstArmsOneStart(cfg: Config, b: Blind, positions: seq<Percent>)
    requires Inv(cfg, b) && b.stopTimeout.None?
    ensures var r := Requests(cfg, b, positions);
      && r.startTimeout == (match LastMove(positions, b.lastPosition)
                            case Some(q) => Some(Timer(DEBOUNCE_DELAY, q))
                            case None => b.startTimeout)
      && r.stopTimeout.None?
      && r.lastPosition == b.lastPosition && r.currentTargetPosition == b.currentTargetPosition
      && r.currentPositionState == b.currentPositionState && r.storedPosition == b.storedPosition
      && Motors(r.effects) == Motors(b.effects)
      && Inv(cfg, r)
    decreases |positions|
  {
    if positions != [] {
      var front := positions[..|positions| - 1];
      BurstArmsOneStart(cfg, b, front);
      RequestKeepsInv(cfg, Requests(cfg, b, front), positions[|positions| - 1]);
    }
  }

  /** A request back to the settled position is ignored outright, so it does not
      cancel a move already armed: the blind still moves to the earlier target. */
  lemma ReturnToSettledKeepsPendingMove(cfg: Config, b: Blind, q: Percent)
    requires Inv(cfg, b) && b.stopTimeout.None? && q != b.lastPosition
    ensures Requests(cfg, b, [q, b.lastPosition]).startTimeout == Some(Timer(DEBOUNCE_DELAY, q))
  {
    var burst := [q, b.lastPosition];
    assert burst[..1] == [q] && [q][..0] == [];
    assert LastMove(burst, b.lastPosition) == Some(q);
    BurstArmsOneStart(cfg, b, burst);
  }

  /** Requests while the stop timer is armed arm nothing and leave the position
      fields alone; at most power-on commands are sent. */
  lemma {:induction false} RequestsWhileMoving(cfg: Config, b: Blind, positions: seq<Percent>)
    requires Inv(cfg, b) && b.stopTimeout.Some?
    ensures var r := Requests(cfg, b, positions);
      && r.startTimeout.None? && r.stopTimeout == b.stopTimeout
      && r.lastPosition == b.lastPosition && r.currentTargetPosition == b.currentTargetPosition
      && r.currentPositionState == b.currentPositionState && r.storedPosition == b.storedPosition
      && Motors(r.effects) == Motors(b.effects)
      && Inv(cfg, r)
    decreases |positions|
  {
    if positions != [] {
      var front := positions[..|positions| - 1];
      RequestsWhileMoving(cfg, b, front);
      RequestKeepsInv(cfg, Requests(cfg, b, front), positions[|positions| - 1]);
    }
  }

  /** The completion of a power command records the requested state whatever the
      transport reported: a reply with any status code other than 200 acts like a success. */
  lemma PowerAckIgnoresReply(b: Blind, index: nat, failed: Reply, succeeded: Reply)
    requires index < |b.pendingPower|
    requires !Succeeded(failed) && Succeeded(succeeded)
    ensures PowerAcked(b, index, failed) == PowerAcked(b, index, succeeded)
    ensures PowerAcked(b, index, failed).powerState == b.pendingPower[index]
  {
  }

  /** A power command and its completion: in debug mode the completion has
      already run, otherwise it is the one outstanding command. Either way the
      recorded state ends as requested. */
  lemma SwitchThenReply(cfg: Config, b: Blind, state: int, reply: Reply)
    requires b.pendingPower == [] && b.powerState != state
    ensures Step(cfg, SwitchPower(cfg, b, state), PowerReplied(0, reply))
      == b.(powerState := state, effects := b.effects + [PowerCommand(state, cfg.httpMethod, PowerUrl(cfg, state))])
  {
    var sent := b.(effects := b.effects + [PowerCommand(state, cfg.httpMethod, PowerUrl(cfg, state))]);
    if !cfg.debugMode {
      assert SwitchPower(cfg, b, state) == sent.(pendingPower := [state]);
      assert PowerAcked(sent.(pendingPower := [state]), 0, reply) == sent.(powerState := state);
    }
  }

  /** A start and the stop that follows it, from a state with only the start armed. */
  lemma StartThenStop(cfg: Config, b: Blind)
    requires b.startTimeout.Some? && b.stopTimeout.None?
    ensures var pos := b.startTimeout.value.pos;
      var state := Direction(b.lastPosition, pos);
      StopFired(cfg, StartFired(cfg, b))
      == b.(startTimeout := None, lastPosition := pos, currentTargetPosition := pos,
            storedPosition := pos, currentPositionState := STOPPED,
            powerOffTimers := b.powerOffTimers + 1,
            effects := b.effects + [Persist(pos), Notify(PositionState, state), StartCommand(cfg, state),
                                    StopCommand(cfg, state), Notify(PositionState, STOPPED),
                                    Notify(CurrentPosition, pos)])
  {
  }

  /** The first two events of a single motion run: the request and its power-on
      completing leave the blind powered with the start timer armed. */
  lemma SingleRunPowerOn(cfg: Config, b: Blind, pos: Percent, reply: Reply)
    requires Idle(b) && b.powerState == POWER_OFF && pos != b.lastPosition
    ensures Run(cfg, b, [Requested(pos), PowerReplied(0, reply)])
      == b.(startTimeout := Some(Timer(DEBOUNCE_DELAY, pos)), powerState := POWER_ON,
            effects := b.effects + [PowerCommand(POWER_ON, cfg.httpMethod, cfg.powerOnUrl)])
  {
    var events := [Requested(pos), PowerReplied(0, reply)];
    var armed := b.(startTimeout := Some(Timer(DEBOUNCE_DELAY, pos)));
    var s1 := SwitchPower(cfg, armed, POWER_ON);
    assert events[..0] == [] && events[..2] == events;
    assert Run(cfg, b, events[..1]) == s1 by {
      RunPrefix(cfg, b, events, 1);
      assert Request(cfg, b, pos) == s1;
    }
    assert Run(cfg, b, events) == armed.(powerState := POWER_ON,
                                         effects := b.effects + [PowerCommand(POWER_ON, cfg.httpMethod, cfg.powerOnUrl)]) by {
      RunPrefix(cfg, b, events, 2);
      SwitchThenReply(cfg, armed, POWER_ON, reply);
    }
  }

  /** The last four events of a single motion run: start, stop, the power-off
      timer and the power-off completing. */
  lemma SingleRunMotion(cfg: Config, s2: Blind, reply: Reply)
    requires s2.startTimeout.Some? && s2.stopTimeout.None? && s2.powerState == POWER_ON
    requires s2.powerOffTimers == 0 && s2.pendingPower == []
    ensures var s4 := StopFired(cfg, StartFired(cfg, s2));
      Run(cfg, s2, [StartTimerFired, StopTimerFired, PowerOffTimerFired, PowerReplied(0, reply)])
      == s4.(powerOffTimers := 0, powerState := POWER_OFF,
             effects := s4.effects + [PowerCommand(POWER_OFF, cfg.httpMethod, cfg.powerOffUrl)])
  {
    var events := [StartTimerFired, StopTimerFired, PowerOffTimerFired, PowerReplied(0, reply)];
    var s4 := StopFired(cfg, StartFired(cfg, s2));
    var rested := s4.(powerOffTimers := 0);
    var s5 := SwitchPower(cfg, rested, POWER_OFF);
    assert events[..0] == [] && events[..4] == events;
    assert Run(cfg, s2, events[..1]) == StartFired(cfg, s2) by {
      RunPrefix(cfg, s2, events, 1);
    }
    assert Run(cfg, s2, events[..2]) == s4 by {
      RunPrefix(cfg, s2, events, 2);
    }
    assert Run(cfg, s2, events[..3]) == s5 by {
      RunPrefix(cfg, s2, events, 3);
      assert PowerOffFired(cfg, s4) == s5;
    }
    assert Run(cfg, s2, events) == rested.(powerState := POWER_OFF,
                                           effects := s4.effects + [PowerCommand(POWER_OFF, cfg.httpMethod, cfg.powerOffUrl)]) by {
      RunPrefix(cfg, s2, events, 4);
      SwitchThenReply(cfg, rested, POWER_OFF, reply);
    }
  }

  /** The six events of a single motion run, as transitions. */
  lemma SingleRun(cfg: Config, b: Blind, pos: Percent, reply: Reply)
    requires Idle(b) && b.powerState == POWER_OFF && pos != b.lastPosition
    ensures var s2 := b.(startTimeout := Some(Timer(DEBOUNCE_DELAY, pos)), powerState := POWER_ON,
                         effects := b.effects + [PowerCommand(POWER_ON, cfg.httpMethod, cfg.powerOnUrl)]);
      var s4 := StopFired(cfg, StartFired(cfg, s2));
      Run(cfg, b, [Requested(pos), PowerReplied(0, reply), StartTimerFired,
                   StopTimerFired, PowerOffTimerFired, PowerReplied(0, reply)])
      == s4.(powerOffTimers := 0, powerState := POWER_OFF,
             effects := s4.effects + [PowerCommand(POWER_OFF, cfg.httpMethod, cfg.powerOffUrl)])
  {
    var first := [Requested(pos), PowerReplied(0, reply)];
    var rest := [StartTimerFired, StopTimerFired, PowerOffTimerFired, PowerReplied(0, reply)];
    assert first + rest == [Requested(pos), PowerReplied(0, reply), StartTimerFired,
                            StopTimerFired, PowerOffTimerFired, PowerReplied(0, reply)];
    RunAppend(cfg, b, first, rest);
    SingleRunPowerOn(cfg, b, pos, reply);
    SingleRunMotion(cfg, Run(cfg, b, first), reply);
  }

  /** A single request from an idle, unpowered blind, with every timer firing and
      every power command completing: power on, persist the target, start and
      stop the motor in one direction, report, power off, in that order; the
      getters then all agree on the new position and the blind is STOPPED. */
  lemma SingleMotionRun(cfg: Config, b: Blind, pos: Percent, reply: Reply)
    requires Idle(b) && b.powerState == POWER_OFF && pos != b.lastPosition
    ensures var state := Direction(b.lastPosition, pos);
      var r := Run(cfg, b, [Requested(pos), PowerReplied(0, reply), StartTimerFired,
                            StopTimerFired, PowerOffTimerFired, PowerReplied(0, reply)]);
      && Idle(r) && r.powerState == POWER_OFF
      && r.lastPosition == pos && r.currentTargetPosition == pos && r.storedPosition == pos
      && r.currentPositionState == STOPPED
      && r.effects == b.effects + [PowerCommand(POWER_ON, cfg.httpMethod, cfg.powerOnUrl),
                                   Persist(pos), Notify(PositionState, state), StartCommand(cfg, state),
                                   StopCommand(cfg, state), Notify(PositionState, STOPPED),
                                   Notify(CurrentPosition, pos),
                                   PowerCommand(POWER_OFF, cfg.httpMethod, cfg.powerOffUrl)]
  {
    var s2 := b.(startTimeout := Some(Timer(DEBOUNCE_DELAY, pos)), powerState := POWER_ON,
                 effects := b.effects + [PowerCommand(POWER_ON, cfg.httpMethod, cfg.powerOnUrl)]);
    SingleRun(cfg, b, pos, reply);
    StartThenStop(cfg, s2);
  }

  /** Running a concatenation of events runs the first part, then the second. */
  lemma {:induction false} RunAppend(cfg: Config, b: Blind, first: seq<Event>, second: seq<Event>)
    ensures Run(cfg, b, first + second) == Run(cfg, Run(cfg, b, first), second)
    decreases |first|
  {
    if first == [] {
      assert first + second == second;
    } else {
      assert (first + second)[0] == first[0];
      assert (first + second)[1..] == first[1..] + second;
      RunAppend(cfg, Step(cfg, b, first[0]), first[1..], second);
    }
  }

  /** The run of the first k events is one step past the run of the first k - 1. */
  lemma RunPrefix(cfg: Config, b: Blind, events: seq<Event>, k: nat)
    requires 0 < k <= |events|
    ensures Run(cfg, b, events[..k]) == Step(cfg, Run(cfg, b, events[..k - 1]), events[k - 1])
  {
    assert events[..k] == events[..k - 1] + [events[k - 1]];
    RunAppend(cfg, b, events[..k - 1], [events[k - 1]]);
    assert [events[k - 1]][1..] == [];
  }

  /** The five events of a retarget while moving, as transitions: the start timer
      that fires after the stop is no longer armed, so it changes nothing. */
  lemma RetargetRun(cfg: Config, b: Blind, first: Percent, second: Percent)
    requires Idle(b) && first != b.lastPosition
    ensures Run(cfg, b, [Requested(first), StartTimerFired, Requested(second), StopTimerFired, StartTimerFired])
      == StopFired(cfg, Request(cfg, StartFired(cfg, Request(cfg, b, first)), second))
  {
    var events := [Requested(first), StartTimerFired, Requested(second), StopTimerFired, StartTimerFired];
    var s1 := Request(cfg, b, first);
    var s2 := StartFired(cfg, s1);
    var s3 := Request(cfg, s2, second);
    var s4 := StopFired(cfg, s3);
    assert events[..0] == [] && events[..5] == events;
    assert Run(cfg, b, events[..1]) == s1 by {
      RunPrefix(cfg, b, events, 1);
    }
    assert Run(cfg, b, events[..2]) == s2 by {
      RunPrefix(cfg, b, events, 2);
      assert s1.startTimeout == Some(Timer(DEBOUNCE_DELAY, first));
    }
    assert Run(cfg, b, events[..3]) == s3 by {
      RunPrefix(cfg, b, events, 3);
    }
    assert Run(cfg, b, events[..4]) == s4 by {
      RunPrefix(cfg, b, events, 4);
      assert s3.stopTimeout == s2.stopTimeout;
    }
    assert Run(cfg, b, events) == s4 by {
      RunPrefix(cfg, b, events, 5);
      assert s4.startTimeout.None?;
    }
  }

  /** A new target requested while the motor runs is dropped: the run ends at the
      first target with exactly one start and one stop, and no start is left. */
  lemma RetargetWhileMovingIsDropped(cfg: Config, b: Blind, first: Percent, second: Percent)
    requires Idle(b) && first != b.lastPosition
    ensures var state := Direction(b.lastPosition, first);
      var r := Run(cfg, b, [Requested(first), StartTimerFired, Requested(second),
                            StopTimerFired, StartTimerFired]);
      && r.lastPosition == first && r.currentTargetPosition == first && r.storedPosition == first
      && r.startTimeout.None? && r.stopTimeout.None? && r.currentPositionState == STOPPED
      && Motors(r.effects) == Motors(b.effects) + [StartCommand(cfg, state), StopCommand(cfg, state)]
  {
    var state := Direction(b.lastPosition, first);
    var s1 := Request(cfg, b, first);
    var s2 := StartFired(cfg, s1);
    var s3 := Request(cfg, s2, second);
    var s4 := StopFired(cfg, s3);
    RetargetRun(cfg, b, first, second);
    assert s1.startTimeout == Some(Timer(DEBOUNCE_DELAY, first)) && Motors(s1.effects) == Motors(b.effects) by {
      RequestMotors(cfg, b, first);
    }
    assert s2.currentPositionState == state && s2.currentTargetPosition == first;
    assert Motors(s2.effects) == Motors(b.effects) + [StartCommand(cfg, state)] by {
      StartFiredMotors(cfg, s1);
    }
    assert s3.currentPositionState == state && s3.currentTargetPosition == first && s3.startTimeout.None?;
    assert Motors(s3.effects) == Motors(s2.effects) by {
      RequestMotors(cfg, s2, second);
    }
    assert Motors(s4.effects) == Motors(s3.effects) + [StopCommand(cfg, state)] by {
      StopFiredMotors(cfg, s3);
    }
  }

  /** Because the recorded power state changes only when the command completes,
      a second request before that completion sends a second power-on command. */
  lemma PowerOnRepeatedBeforeReply(cfg: Config, b: Blind, first: Percent, second: Percent)
    requires !cfg.debugMode
    requires Inv(cfg, b) && Idle(b) && b.powerState == POWER_OFF
    requires first != b.lastPosition && second != b.lastPosition
    ensures var r := Requests(cfg, b, [first, second]);
      && r.effects == b.effects + [PowerCommand(POWER_ON, cfg.httpMethod, cfg.powerOnUrl),
                                   PowerCommand(POWER_ON, cfg.httpMethod, cfg.powerOnUrl)]
      && r.pendingPower == [POWER_ON, POWER_ON]
      && r.startTimeout == Some(Timer(DEBOUNCE_DELAY, second))
  {
    var r1 := Request(cfg, b, first);
    assert [first][..0] == [];
    assert Requests(cfg, b, [first]) == r1;
    assert [first, second][..1] == [first];
    assert Requests(cfg, b, [first, second]) == Request(cfg, r1, second);
  }

  /** The power-off timer armed when a motion ends is never cancelled. A request
      within that second arms a start timer that fires after it: the power is
      switched off and the motor is then started with no power-on in between. */
  lemma PowerOffCanPrecedeMotorStart(cfg: Config, b: Blind, pos: Percent, reply: Reply)
    requires b.startTimeout.None? && b.stopTimeout.None?
    requires b.powerState == POWER_ON && b.pendingPower == [] && b.powerOffTimers == 1
    requires pos != b.lastPosition
    ensures var state := Direction(b.lastPosition, pos);
      var r := Run(cfg, b, [Requested(pos), PowerOffTimerFired, PowerReplied(0, reply), StartTimerFired]);
      && r.powerState == POWER_OFF && r.stopTimeout.Some?
      && r.effects == b.effects + [PowerCommand(POWER_OFF, cfg.httpMethod, cfg.powerOffUrl),
                                   Persist(pos), Notify(PositionState, state), StartCommand(cfg, state)]
  {
    var state := Direction(b.lastPosition, pos);
    var events := [Requested(pos), PowerOffTimerFired, PowerReplied(0, reply), StartTimerFired];
    var s1 := b.(startTimeout := Some(Timer(DEBOUNCE_DELAY, pos)));
    var rested := s1.(powerOffTimers := 0);
    var s2 := SwitchPower(cfg, rested, POWER_OFF);
    var s3 := rested.(powerState := POWER_OFF,
                      effects := b.effects + [PowerCommand(POWER_OFF, cfg.httpMethod, cfg.powerOffUrl)]);
    assert events[..0] == [] && events[..4] == events;
    assert Run(cfg, b, events[..1]) == s1 by {
      RunPrefix(cfg, b, events, 1);
    }
    assert Run(cfg, b, events[..2]) == s2 by {
      RunPrefix(cfg, b, events, 2);
      assert PowerOffFired(cfg, s1) == s2;
    }
    assert Run(cfg, b, events[..3]) == s3 by {
      RunPrefix(cfg, b, events, 3);
      SwitchThenReply(cfg, rested, POWER_OFF, reply);
    }
    assert Run(cfg, b, events) == StartFired(cfg, s3) by {
      RunPrefix(cfg, b, events, 4);
    }
  }
}
