/**
 * Properties of the control loop over one iteration and over runs of many
 * iterations: clicks, long presses, rotations, the LED overlay and the
 * reconnect loop.
 */
module DaemonProperties {
  import opened Wrappers
  import opened Effects
  import opened Led
  import opened Events
  import opened Configuration
  import opened Daemon

  /** The state, effects and actions after a run of loop iterations. */
  datatype RunResult = RunResult(view: View, effects: seq<Effect>, actions: seq<Action>, exited: bool)

  function ActionsOf(action: Option<Action>): seq<Action>
  {
    if action.Some? then [action.value] else []
  }

  /** Successive iterations of the `while (1)` loop; a failed `poll` ends the process. */
  function Run(v: View, s: Settings, inputs: seq<LoopInput>): (r: RunResult)
    decreases |inputs|
    ensures r.view.muted == v.muted && r.view.polledFd == v.polledFd
    ensures |r.actions| <= |inputs|
    ensures inputs == [] ==> r == RunResult(v, [], [], false)
  {
    if inputs == [] then RunResult(v, [], [], false)
    else
      var first := Iteration(v, s, inputs[0]);
      if first.exited then RunResult(first.view, first.effects, ActionsOf(first.action), true)
      else
        var rest := Run(first.view, s, inputs[1..]);
        RunResult(rest.view, first.effects + rest.effects, ActionsOf(first.action) + rest.actions, rest.exited)
  }

  /** Every iteration of the run gets outcomes `poll` could deliver. */
  predicate RunAdmissible(v: View, s: Settings, inputs: seq<LoopInput>)
    decreases |inputs|
  {
    inputs == [] ||
    (IterationAdmissible(v, s, inputs[0]) &&
     var first := Iteration(v, s, inputs[0]);
     first.exited || RunAdmissible(first.view, s, inputs[1..]))
  }

  /** An iteration with the device open whose record is a rotation or is ignored. */
  predicate Quiet(input: LoopInput)
  {
    && input.poll == Ready
    && input.read.FullRecord?
    && (Classify(input.read.ev).Rotate? || Classify(input.read.ev) == Ignored)
  }

  predicate IsPress(input: LoopInput)
  {
    input.poll == Ready && input.read.FullRecord? && Classify(input.read.ev).PressEdge?
  }

  predicate IsRelease(input: LoopInput)
  {
    input.poll == Ready && input.read.FullRecord? && Classify(input.read.ev) == ReleaseEdge
  }

  // ---------------------------------------------------------------------------
  // The long-press timer

  /**
   * A timed-out `poll` happens only while the timer is armed and not yet
   * overdue, and it wakes the loop exactly at the long-press deadline.
   */
  lemma TimedOutOnlyWhenArmed(v: View, s: Settings, nowMs: int)
    requires Admissible(v, s, TimedOut, nowMs)
    ensures LongPressArmed(v.knobDepressed, s.longPressCommand)
    ensures nowMs <= v.pressMs + s.longPressMs
    ensures nowMs + PollTimeout(v, s, nowMs) == v.pressMs + s.longPressMs
  {
  }

  /** With the long-press command configured as "" the timer is never armed. */
  lemma SuppressedTimerNeverArms(v: View, s: Settings, nowMs: int)
    requires s.longPressCommand == Some("")
    ensures PollTimeout(v, s, nowMs) == -1
    ensures !Admissible(v, s, TimedOut, nowMs)
  {
  }

  /**
   * Once the deadline has passed the timeout is negative, so `poll` waits
   * indefinitely for the next record.
   */
  lemma OverdueLongPressWaits(v: View, s: Settings, nowMs: int)
    requires LongPressArmed(v.knobDepressed, s.longPressCommand)
    requires nowMs > v.pressMs + s.longPressMs
    ensures PollTimeout(v, s, nowMs) < 0
    ensures !Admissible(v, s, TimedOut, nowMs)
  {
  }

  /**
   * The timer running out with the knob held releases it, toggles movie mode
   * exactly when no long-press command is configured, dispatches the command
   * otherwise, and refreshes the LED once.
   */
  lemma LongPressOnTimeout(v: View, s: Settings, read: ReadOutcome, nowMs: int)
    requires v.knobDepressed && Admissible(v, s, TimedOut, nowMs)
    ensures var r := Transition(v, s, TimedOut, read);
            && !r.view.knobDepressed
            && (r.view.movieMode != v.movieMode <==> s.longPressCommand.None?)
            && r.view == v.(knobDepressed := false, movieMode := r.view.movieMode)
            && r.action == Some(LongPress)
            && r.effects == (if s.longPressCommand.None? then [] else Dispatched(s.longPressCommand)) +
                            [SetLed(v.devfd, LedValue(v.muted, r.view.movieMode, REFRESH_LEVEL))]
            && LedWrites(r.effects) == 1
  {
    var r := Transition(v, s, TimedOut, read);
    var commandFx := if s.longPressCommand.None? then [] else Dispatched(s.longPressCommand);
    LedWritesAppend(commandFx, [SetLed(v.devfd, LedValue(v.muted, r.view.movieMode, REFRESH_LEVEL))]);
    assert LedWrites(commandFx) == 0;
  }

  // ---------------------------------------------------------------------------
  // Input records

  /**
   * Button records: a press edge holds the knob and stores the record's time
   * stamp, even over an earlier press; a release edge clicks and dispatches the
   * knob command only when the knob was held; other values change nothing.
   */
  lemma ButtonEdges(v: View, s: Settings, ev: InputEvent)
    requires IsButton(ev)
    ensures var r := Transition(v, s, Ready, FullRecord(ev));
            && (ev.value == 1 ==> r == StepResult(v.(knobDepressed := true, pressMs := ev.timeMs), [], None, false))
            && (ev.value == 0 && v.knobDepressed ==>
                  r == StepResult(v.(knobDepressed := false), Dispatched(s.knobCommand), Some(Click), false))
            && (ev.value == 0 && !v.knobDepressed ==> r == StepResult(v, [], None, false))
            && (ev.value != 0 && ev.value != 1 ==> r == StepResult(v, [], None, false))
  {
  }

  /**
   * Dial records: -1 dispatches the counter-clockwise command, +1 the clockwise
   * one, other values nothing, and none of them touches the state.
   */
  lemma RotationDispatch(v: View, s: Settings, ev: InputEvent)
    requires IsDial(ev)
    ensures var r := Transition(v, s, Ready, FullRecord(ev));
            && r.view == v
            && (ev.value == -1 ==> r.effects == Dispatched(s.counterClockWiseCommand) && r.action == Some(RotateCCW))
            && (ev.value == 1 ==> r.effects == Dispatched(s.clockWiseCommand) && r.action == Some(RotateCW))
            && (ev.value != 1 && ev.value != -1 ==> r.effects == [] && r.action == None)
  {
  }

  /** Records that are neither dial nor button records change nothing. */
  lemma OtherRecordsIgnored(v: View, s: Settings, ev: InputEvent)
    requires !IsDial(ev) && !IsButton(ev)
    ensures Transition(v, s, Ready, FullRecord(ev)) == StepResult(v, [], None, false)
  {
  }

  /** A short read marks the device gone and dispatches nothing. */
  lemma ShortReadDisconnects(v: View, s: Settings)
    ensures Transition(v, s, Ready, ShortRead) == StepResult(v.(devfd := -1), [], None, false)
  {
  }

  /**
   * Every LED write of the loop body shows the refresh level, or 0 while muted
   * or in movie mode.
   */
  lemma LedDarkUnderOverlay(v: View, s: Settings, poll: PollOutcome, read: ReadOutcome)
    ensures var r := Transition(v, s, poll, read);
            forall i | 0 <= i < |r.effects| && r.effects[i].SetLed? ::
              && (r.view.muted || r.view.movieMode ==> r.effects[i].value == 0)
              && (!r.view.muted && !r.view.movieMode ==> r.effects[i].value == REFRESH_LEVEL)
  {
  }

  // ---------------------------------------------------------------------------
  // Runs

  /** A long-press command of "" means no long press ever fires and movie mode never changes. */
  lemma {:induction false} SuppressedLongPressNeverFires(v: View, s: Settings, inputs: seq<LoopInput>)
    requires s.longPressCommand == Some("")
    requires RunAdmissible(v, s, inputs)
    ensures LongPress !in Run(v, s, inputs).actions
    ensures Run(v, s, inputs).view.movieMode == v.movieMode
    decreases |inputs|
  {
    if inputs != [] {
      var first := Iteration(v, s, inputs[0]);
      var reconnected := AwaitDevice(v, inputs[0].opens);
      if reconnected.view.devfd >= 0 {
        SuppressedTimerNeverArms(reconnected.view, s, inputs[0].nowMs);
      }
      if !first.exited {
        SuppressedLongPressNeverFires(first.view, s, inputs[1..]);
      }
    }
  }

  /**
   * One iteration with a negative polled descriptor and the knob not held: the
   * reconnect loop only sleeps and refreshes the LED, and the rest of the body
   * does nothing, since `poll` can neither report a record nor time out.
   */
  lemma AbsentDeviceIteration(v: View, s: Settings, input: LoopInput)
    requires v.polledFd < 0 && !v.knobDepressed
    requires IterationAdmissible(v, s, input)
    ensures var r := Iteration(v, s, input);
            && r.action == None && NoExec(r.effects)
            && r.view == v.(devfd := r.view.devfd)
  {
    var reconnected := AwaitDevice(v, input.opens);
    if v.devfd < 0 {
      AwaitDeviceOutcome(v, input.opens);
      if reconnected.view.devfd >= 0 {
        SleepsAreInert(reconnected.attempts - 1);
        NoExecAppend(Sleeps(reconnected.attempts - 1), [reconnected.effects[|reconnected.effects| - 1]]);
      } else {
        SleepsAreInert(|input.opens|);
      }
    }
    if reconnected.view.devfd >= 0 {
      assert Transition(reconnected.view, s, input.poll, input.read).effects == [];
      assert reconnected.effects + [] == reconnected.effects;
    }
  }

  /**
   * The descriptor handed to `poll` is fixed when the loop starts. When the
   * first open failed it is negative, so `poll` never reports a record: no
   * command is ever dispatched and no action taken, whatever the reconnect
   * loop opens later.
   */
  lemma {:induction false} DeviceAbsentAtStartNeverDispatches(v: View, s: Settings, inputs: seq<LoopInput>)
    requires v.polledFd < 0 && !v.knobDepressed
    requires RunAdmissible(v, s, inputs)
    ensures var r := Run(v, s, inputs);
            r.actions == [] && NoExec(r.effects) && !r.view.knobDepressed && r.view.movieMode == v.movieMode
    decreases |inputs|
  {
    if inputs != [] {
      var first := Iteration(v, s, inputs[0]);
      AbsentDeviceIteration(v, s, inputs[0]);
      if !first.exited {
        DeviceAbsentAtStartNeverDispatches(first.view, s, inputs[1..]);
        NoExecAppend(first.effects, Run(first.view, s, inputs[1..]).effects);
      }
    }
  }

  /** With the device open, a rotation or an ignored record leaves the state as it is and neither clicks nor long-presses. */
  lemma QuietIteration(v: View, s: Settings, input: LoopInput)
    requires v.devfd >= 0 && Quiet(input)
    ensures var r := Iteration(v, s, input);
            r.view == v && !r.exited && r.action != Some(Click) && r.action != Some(LongPress)
  {
    assert AwaitDevice(v, input.opens) == Reconnection(v, [], 0);
  }

  /** With the device open, a release edge releases the knob and clicks exactly when it was held. */
  lemma ReleaseIteration(v: View, s: Settings, input: LoopInput)
    requires v.devfd >= 0 && IsRelease(input)
    ensures var r := Iteration(v, s, input);
            && r.view == v.(knobDepressed := false) && !r.exited
            && r.action == (if v.knobDepressed then Some(Click) else None)
            && r.effects == (if v.knobDepressed then Dispatched(s.knobCommand) else [])
  {
    assert AwaitDevice(v, input.opens) == Reconnection(v, [], 0);
  }

  /** With the device open, a press edge holds the knob and takes no action. */
  lemma PressIteration(v: View, s: Settings, input: LoopInput)
    requires v.devfd >= 0 && IsPress(input)
    ensures var r := Iteration(v, s, input);
            && r.view == v.(knobDepressed := true, pressMs := Classify(input.read.ev).atMs)
            && r.action == None && r.effects == [] && !r.exited
  {
    assert AwaitDevice(v, input.opens) == Reconnection(v, [], 0);
  }

  /** A run of one release edge, with the device open. */
  lemma ReleaseRun(v: View, s: Settings, release: LoopInput)
    requires v.devfd >= 0 && IsRelease(release)
    ensures var r := Run(v, s, [release]);
            && r.actions == (if v.knobDepressed then [Click] else [])
            && r.view == v.(knobDepressed := false) && !r.exited
  {
    var first := Iteration(v, s, release);
    ReleaseIteration(v, s, release);
    assert [release][1..] == [];
    assert Run(first.view, s, []) == RunResult(first.view, [], [], false);
  }

  /** A run that goes on past its first iteration is that iteration followed by the run of the rest. */
  lemma RunUnfolds(v: View, s: Settings, inputs: seq<LoopInput>)
    requires inputs != [] && !Iteration(v, s, inputs[0]).exited
    ensures var first := Iteration(v, s, inputs[0]);
            var rest := Run(first.view, s, inputs[1..]);
            Run(v, s, inputs) == RunResult(rest.view, first.effects + rest.effects,
                                           ActionsOf(first.action) + rest.actions, rest.exited)
  {
  }

  /** An action that is neither a click nor a long press, put before a run's actions, adds neither and keeps the last one. */
  lemma QuietActionPrefix(action: Option<Action>, actions: seq<Action>)
    requires action != Some(Click) && action != Some(LongPress)
    ensures var all := ActionsOf(action) + actions;
            && multiset(all)[Click] == multiset(actions)[Click]
            && multiset(all)[LongPress] == multiset(actions)[LongPress]
            && (actions != [] ==> all[|all| - 1] == actions[|actions| - 1])
  {
    assert multiset(ActionsOf(action) + actions) == multiset(ActionsOf(action)) + multiset(actions);
  }

  /**
   * An overdue long press never fires. The deadline passed while the loop was
   * busy, so from then on the timeout is negative and `poll` cannot time out;
   * it waits for the next record, which is handled as usual. Rotations and
   * ignored records keep the press pending, and the release clicks instead.
   */
  lemma OverdueLongPressNeverFires(v: View, s: Settings, nowMs: int, quiet: seq<LoopInput>, release: LoopInput)
    requires v.devfd >= 0 && LongPressArmed(v.knobDepressed, s.longPressCommand)
    requires nowMs > v.pressMs + s.longPressMs
    requires forall i | 0 <= i < |quiet| :: Quiet(quiet[i])
    requires IsRelease(release)
    ensures forall later | later >= nowMs :: !Admissible(v, s, TimedOut, later)
    ensures var r := Run(v, s, quiet + [release]);
            && multiset(r.actions)[LongPress] == 0
            && multiset(r.actions)[Click] == 1
            && r.actions[|r.actions| - 1] == Click
            && !r.view.knobDepressed
  {
    forall later | later >= nowMs
      ensures !Admissible(v, s, TimedOut, later)
    {
      OverdueLongPressWaits(v, s, later);
    }
    QuietRunThenRelease(v, s, quiet, release);
  }

  /**
   * With the device open, rotations and ignored records followed by a release
   * click exactly once when the knob was held and never otherwise, and no long
   * press fires.
   */
  lemma {:induction false} QuietRunThenRelease(v: View, s: Settings, quiet: seq<LoopInput>, release: LoopInput)
    requires v.devfd >= 0
    requires forall i | 0 <= i < |quiet| :: Quiet(quiet[i])
    requires IsRelease(release)
    ensures var r := Run(v, s, quiet + [release]);
            && multiset(r.actions)[Click] == (if v.knobDepressed then 1 else 0)
            && multiset(r.actions)[LongPress] == 0
            && (v.knobDepressed ==> r.actions[|r.actions| - 1] == Click)
            && r.view == v.(knobDepressed := false)
            && !r.exited
    decreases |quiet|
  {
    if quiet == [] {
      assert quiet + [release] == [release];
      ReleaseRun(v, s, release);
    } else {
      var inputs := quiet + [release];
      assert inputs[0] == quiet[0];
      assert inputs[1..] == quiet[1..] + [release];
      QuietIteration(v, s, quiet[0]);
      QuietRunThenRelease(v, s, quiet[1..], release);
      RunUnfolds(v, s, inputs);
      QuietActionPrefix(Iteration(v, s, quiet[0]).action, Run(v, s, quiet[1..] + [release]).actions);
    }
  }

  /**
   * A press, then only rotations and ignored records, then a release: exactly
   * one click and no long press, and the knob ends up released.
   */
  lemma PressThenReleaseClicksOnce(v: View, s: Settings, press: LoopInput, quiet: seq<LoopInput>,
                                   release: LoopInput)
    requires v.devfd >= 0
    requires IsPress(press) && IsRelease(release)
    requires forall i | 0 <= i < |quiet| :: Quiet(quiet[i])
    ensures var r := Run(v, s, [press] + quiet + [release]);
            && multiset(r.actions)[Click] == 1
            && multiset(r.actions)[LongPress] == 0
            && r.actions[|r.actions| - 1] == Click
            && !r.view.knobDepressed
            && r.view.movieMode == v.movieMode
  {
    var inputs := [press] + quiet + [release];
    assert inputs[0] == press;
    assert inputs[1..] == quiet + [release];
    var first := Iteration(v, s, press);
    PressIteration(v, s, press);
    RunUnfolds(v, s, inputs);
    assert ActionsOf(first.action) == [];
    QuietRunThenRelease(first.view, s, quiet, release);
  }

  /**
   * A long press that fires (at the deadline) followed by rotations, ignored
   * records and a late release: one long press and no click, because the
   * release finds the knob already released.
   */
  lemma LongPressThenLateRelease(v: View, s: Settings, expiry: LoopInput, quiet: seq<LoopInput>,
                                 release: LoopInput)
    requires v.devfd >= 0 && v.knobDepressed
    requires expiry.poll == TimedOut && Admissible(v, s, TimedOut, expiry.nowMs)
    requires forall i | 0 <= i < |quiet| :: Quiet(quiet[i])
    requires IsRelease(release)
    ensures expiry.nowMs + PollTimeout(v, s, expiry.nowMs) == v.pressMs + s.longPressMs
    ensures var r := Run(v, s, [expiry] + quiet + [release]);
            && r.actions[0] == LongPress
            && multiset(r.actions)[LongPress] == 1
            && multiset(r.actions)[Click] == 0
            && !r.view.knobDepressed
            && (r.view.movieMode != v.movieMode <==> s.longPressCommand.None?)
  {
    var inputs := [expiry] + quiet + [release];
    assert inputs[0] == expiry;
    assert inputs[1..] == quiet + [release];
    var first := Iteration(v, s, expiry);
    assert !first.view.knobDepressed && first.view.devfd >= 0 && first.action == Some(LongPress) && !first.exited;
    var rest := Run(first.view, s, quiet + [release]);
    assert Run(v, s, inputs).actions == [LongPress] + rest.actions;
    assert Run(v, s, inputs).view == rest.view;
    QuietRunThenRelease(first.view, s, quiet, release);
  }

  // ---------------------------------------------------------------------------
  // Scenarios

  /**
   * With the default long-press settings (no command, 1000 ms): a press at 0 ms, the
   * timer running out (the loop was woken at 0 ms, so `poll` waited 1000 ms) and
   * a release at 1500 ms. Movie mode turns on, the LED is written 0 although
   * level 2 was asked for, and the late release does nothing.
   */
  lemma MovieModeScenario(s: Settings, fd: nat)
    requires s.longPressCommand == DEFAULT_SETTINGS.longPressCommand && s.longPressMs == DEFAULT_SETTINGS.longPressMs
    ensures var v := View(false, false, false, 0, fd, fd);
            var inputs := [LoopInput([], Ready, FullRecord(InputEvent(EV_KEY, BTN_0, 1, 0)), 0),
                           LoopInput([], TimedOut, ShortRead, 0),
                           LoopInput([], Ready, FullRecord(InputEvent(EV_KEY, BTN_0, 0, 1500)), 1500)];
            var r := Run(v, s, inputs);
            && RunAdmissible(v, s, inputs)
            && r.actions == [LongPress]
            && r.view.movieMode
            && r.effects == [SetLed(fd, 0)]
  {
    var v := View(false, false, false, 0, fd, fd);
    var inputs := [LoopInput([], Ready, FullRecord(InputEvent(EV_KEY, BTN_0, 1, 0)), 0),
                   LoopInput([], TimedOut, ShortRead, 0),
                   LoopInput([], Ready, FullRecord(InputEvent(EV_KEY, BTN_0, 0, 1500)), 1500)];
    var held := v.(knobDepressed := true);
    var movie := v.(movieMode := true);
    PressIteration(v, s, inputs[0]);
    assert PollTimeout(held, s, 0) == 1000;
    assert Iteration(held, s, inputs[1]) == StepResult(movie, [SetLed(fd, 0)], Some(LongPress), false);
    ReleaseIteration(movie, s, inputs[2]);
    assert inputs[1..][1..][1..] == [];
    RunUnfolds(movie, s, inputs[1..][1..]);
    RunUnfolds(held, s, inputs[1..]);
    RunUnfolds(v, s, inputs);
    assert RunAdmissible(movie, s, inputs[1..][1..]);
    assert RunAdmissible(held, s, inputs[1..]);
  }

  /**
   * Three failed opens and then a successful one: three one-second sleeps, no
   * command, and exactly one LED refresh, on the new descriptor.
   */
  lemma ThreeFailedOpensThenSuccess(v: View, fd: nat)
    requires v.devfd < 0
    ensures var r := AwaitDevice(v, [OpenFailed, OpenFailed, OpenFailed, Opened(fd)]);
            && r.view == v.(devfd := fd)
            && r.effects == [Sleep(1), Sleep(1), Sleep(1), SetLed(fd, LedValue(v.muted, v.movieMode, REFRESH_LEVEL))]
            && r.attempts == 4
            && LedWrites(r.effects) == 1
            && NoExec(r.effects)
  {
    var opens := [OpenFailed, OpenFailed, OpenFailed, Opened(fd)];
    var r := AwaitDevice(v, opens);
    AwaitDeviceOutcome(v, opens);
    assert opens[3].Opened?;
    assert r.attempts == 4;
    var refresh := SetLed(fd, LedValue(v.muted, v.movieMode, REFRESH_LEVEL));
    assert r.effects == Sleeps(3) + [refresh];
    SleepsAreInert(3);
    LedWritesAppend(Sleeps(3), [refresh]);
    NoExecAppend(Sleeps(3), [refresh]);
  }
}
