/**
 * The control loop of the daemon (main.c:209-297): the reconnect loop, the
 * long-press timer and the handling of one input record, over the global state
 * of main.c:23-28.
 */
module Daemon {
  import opened Wrappers
  import opened Effects
  import opened Led
  import opened Events
  import opened Configuration

  /** The domain actions one loop iteration can produce. */
  datatype Action = RotateCW | RotateCCW | Click | LongPress

  /** What `poll` returned: 0 (timed out), a positive count (ready) or -1. */
  datatype PollOutcome = TimedOut | Ready | PollFailed

  /** What `read` of one `struct input_event` returned: the whole record or less. */
  datatype ReadOutcome = FullRecord(ev: InputEvent) | ShortRead

  /** What `open(dev, O_RDWR)` returned. */
  datatype OpenOutcome = Opened(fd: nat) | OpenFailed

  /** The descriptor main keeps after an open: the new one, or -1. */
  function OpenedFd(outcome: OpenOutcome): (fd: int)
    ensures fd >= 0 <==> outcome.Opened?
    ensures outcome.Opened? ==> fd == outcome.fd
  {
    match outcome
    case Opened(fd) => fd
    case OpenFailed => -1
  }

  /**
   * The daemon's state as a value: the globals `muted`, `movie_mode`,
   * `knob_depressed`, `knob_depressed_timestamp` (in milliseconds) and `devfd`,
   * and `fds[0].fd`, the descriptor handed to `poll`.
   */
  datatype View = View(
    muted: bool,
    movieMode: bool,
    knobDepressed: bool,
    pressMs: int,
    devfd: int,
    polledFd: int)

  /** The new state, the effects in order, the action taken and whether the process exited. */
  datatype StepResult = StepResult(view: View, effects: seq<Effect>, action: Option<Action>, exited: bool)

  /**
   * The long-press timer runs while the knob is held, unless the long-press
   * command is configured as the empty string (main.c:229).
   */
  predicate LongPressArmed(knobDepressed: bool, longPressCommand: Option<string>)
    ensures LongPressArmed(knobDepressed, longPressCommand) ==> knobDepressed
    ensures longPressCommand == Some("") ==> !LongPressArmed(knobDepressed, longPressCommand)
    ensures knobDepressed && longPressCommand != Some("") ==> LongPressArmed(knobDepressed, longPressCommand)
  {
    knobDepressed && (longPressCommand.None? || longPressCommand.value != "")
  }

  /**
   * The timeout handed to `poll` (main.c:228-239): -1 (wait indefinitely) when
   * the timer is not armed; otherwise the milliseconds left until the long-press
   * deadline, not clamped at 0, so that an overdue deadline also yields a
   * negative timeout.
   */
  function PollTimeout(v: View, s: Settings, nowMs: int): (timeout: int)
    ensures !LongPressArmed(v.knobDepressed, s.longPressCommand) ==> timeout == -1
    ensures LongPressArmed(v.knobDepressed, s.longPressCommand) ==>
              nowMs + timeout == v.pressMs + s.longPressMs
  {
    if LongPressArmed(v.knobDepressed, s.longPressCommand) then
      (s.longPressMs + v.pressMs) - nowMs
    else
      -1
  }

  /**
   * The outcomes `poll` can deliver: it times out only after a timeout of at
   * least 0 (a negative one waits for ever), and it reports readiness only on a
   * descriptor that is not negative (POSIX poll ignores negative descriptors).
   */
  predicate Admissible(v: View, s: Settings, poll: PollOutcome, nowMs: int)
  {
    && (poll == TimedOut ==> PollTimeout(v, s, nowMs) >= 0)
    && (poll == Ready ==> v.polledFd >= 0)
  }

  /** A result that leaves the state as it is and does nothing. */
  function NoChange(v: View): StepResult
  {
    StepResult(v, [], None, false)
  }

  /**
   * The timer ran out with the knob held (main.c:254-265): the knob counts as
   * released, a NULL long-press command toggles movie mode, any other one is
   * dispatched, and the LED is refreshed.
   */
  function LongPressExpiry(v: View, s: Settings): (r: StepResult)
    ensures !r.view.knobDepressed && r.action == Some(LongPress) && !r.exited
    ensures r.view.movieMode != v.movieMode <==> s.longPressCommand.None?
    ensures r.view.pressMs == v.pressMs && r.view.devfd == v.devfd && r.view.muted == v.muted
    ensures |r.effects| >= 1 && r.effects[|r.effects| - 1].SetLed?
    ensures r.effects[..|r.effects| - 1] == if s.longPressCommand.None? then [] else Dispatched(s.longPressCommand)
  {
    var toggles := s.longPressCommand.None?;
    var after := v.(knobDepressed := false, movieMode := if toggles then !v.movieMode else v.movieMode);
    var commandFx := if toggles then [] else Dispatched(s.longPressCommand);
    StepResult(after, commandFx + [SetLed(after.devfd, LedValue(after.muted, after.movieMode, REFRESH_LEVEL))],
               Some(LongPress), false)
  }

  /**
   * One classified input record (main.c:276-294). A press edge stores its time
   * stamp even while the knob is already held; a release edge clicks only when
   * the knob was held.
   */
  function HandleInput(v: View, s: Settings, k: KnobInput): (r: StepResult)
    ensures r.view.muted == v.muted && r.view.movieMode == v.movieMode && r.view.devfd == v.devfd
    ensures !r.exited && r.action != Some(LongPress)
    ensures r.action == Some(Click) <==> k == ReleaseEdge && v.knobDepressed
    ensures r.view.knobDepressed <==> k.PressEdge? || (v.knobDepressed && k != ReleaseEdge)
    ensures r.view.pressMs == if k.PressEdge? then k.atMs else v.pressMs
  {
    match k
    case Rotate(clockwise) =>
      StepResult(v, Dispatched(if clockwise then s.clockWiseCommand else s.counterClockWiseCommand),
                 Some(if clockwise then RotateCW else RotateCCW), false)
    case PressEdge(atMs) =>
      NoChange(v.(knobDepressed := true, pressMs := atMs))
    case ReleaseEdge =>
      if v.knobDepressed then StepResult(v.(knobDepressed := false), Dispatched(s.knobCommand), Some(Click), false)
      else NoChange(v)
    case Ignored =>
      NoChange(v)
  }

  /**
   * The loop body after the reconnect loop (main.c:228-296). `poll` returning 0
   * means no descriptor is ready, so the timer branch and the read branch never
   * both run in one iteration. A failed `poll` ends the process.
   */
  function Transition(v: View, s: Settings, poll: PollOutcome, read: ReadOutcome): (r: StepResult)
    ensures r.view.muted == v.muted && r.view.polledFd == v.polledFd
    ensures r.exited <==> poll == PollFailed
    ensures r.view.movieMode != v.movieMode ==> r.action == Some(LongPress) && s.longPressCommand.None?
    ensures r.view.devfd != v.devfd ==> poll == Ready && read == ShortRead && r.view.devfd == -1
    ensures r.view.knobDepressed && !v.knobDepressed ==>
              poll == Ready && read.FullRecord? && Classify(read.ev).PressEdge? && r.effects == []
    ensures r.action.Some? ==> poll != PollFailed
    ensures forall i | 0 <= i < |r.effects| && r.effects[i].SetLed? ::
              r.effects[i] == SetLed(v.devfd, LedValue(r.view.muted, r.view.movieMode, REFRESH_LEVEL))
  {
    if poll == PollFailed then
      StepResult(v, [], None, true)
    else if v.knobDepressed && poll == TimedOut then
      LongPressExpiry(v, s)
    else if poll == Ready then
      match read
      case ShortRead => NoChange(v.(devfd := -1))
      case FullRecord(ev) => HandleInput(v, s, Classify(ev))
    else
      NoChange(v)
  }

  /** The result of the reconnect loop over a list of open attempts. */
  datatype Reconnection = Reconnection(view: View, effects: seq<Effect>, attempts: nat)

  /**
   * The reconnect loop (main.c:214-226) over the outcomes of successive `open`
   * calls: each failure is followed by a one-second sleep, the first success
   * becomes `devfd` and refreshes the LED. When the outcomes run out first the
   * loop is still waiting and `devfd` is still negative.
   */
  function AwaitDevice(v: View, opens: seq<OpenOutcome>): (r: Reconnection)
    decreases |opens|
    ensures r.attempts <= |opens|
    ensures r.view == v.(devfd := r.view.devfd)
    ensures v.devfd >= 0 ==> r == Reconnection(v, [], 0)
  {
    if v.devfd >= 0 || opens == [] then
      Reconnection(v, [], 0)
    else
      match opens[0]
      case Opened(fd) =>
        Reconnection(v.(devfd := fd), [SetLed(fd, LedValue(v.muted, v.movieMode, REFRESH_LEVEL))], 1)
      case OpenFailed =>
        var rest := AwaitDevice(v.(devfd := -1), opens[1..]);
        Reconnection(rest.view, [Sleep(1)] + rest.effects, rest.attempts + 1)
  }

  /** One attempt of the reconnect loop: the descriptor `open` returned, then a sleep or an LED refresh, then the rest. */
  lemma AwaitDeviceStep(v: View, opens: seq<OpenOutcome>)
    requires v.devfd < 0 && opens != []
    ensures var w := v.(devfd := OpenedFd(opens[0]));
            var rest := AwaitDevice(w, opens[1..]);
            var fx := if w.devfd == -1 then Sleep(1) else SetLed(w.devfd, LedValue(v.muted, v.movieMode, REFRESH_LEVEL));
            AwaitDevice(v, opens) == Reconnection(rest.view, [fx] + rest.effects, rest.attempts + 1)
  {
  }

  /**
   * The loop invariant of the reconnect loop started in `start` with trace
   * `startTrace`: after `attempts` attempts, with descriptor `devfd` and trace
   * `trace`, finishing the remaining attempts gives what `AwaitDevice` gives
   * for the whole loop.
   */
  ghost predicate Reconnecting(start: View, startTrace: seq<Effect>, opens: seq<OpenOutcome>,
                               devfd: int, trace: seq<Effect>, attempts: nat)
    requires attempts <= |opens|
  {
    var whole := AwaitDevice(start, opens);
    var rest := AwaitDevice(start.(devfd := devfd), opens[attempts..]);
    && whole.view == rest.view
    && startTrace + whole.effects == trace + rest.effects
    && whole.attempts == attempts + rest.attempts
  }

  /** One more failed or successful `open` keeps the invariant of the reconnect loop. */
  lemma ReconnectingStep(start: View, startTrace: seq<Effect>, opens: seq<OpenOutcome>,
                         devfd: int, trace: seq<Effect>, attempts: nat)
    requires devfd < 0 && attempts < |opens|
    requires Reconnecting(start, startTrace, opens, devfd, trace, attempts)
    ensures var fd := OpenedFd(opens[attempts]);
            var fx := if fd == -1 then Sleep(1) else SetLed(fd, LedValue(start.muted, start.movieMode, REFRESH_LEVEL));
            Reconnecting(start, startTrace, opens, fd, trace + [fx], attempts + 1)
  {
    var remaining := opens[attempts..];
    assert remaining[0] == opens[attempts] && remaining[1..] == opens[attempts + 1..];
    AwaitDeviceStep(start.(devfd := devfd), remaining);
  }

  /**
   * The reconnect loop ends exactly when some attempt succeeds; it then took
   * the first success, slept once after every failure before it and refreshed
   * the LED exactly once, on the new descriptor. Without a success it only
   * slept, once per attempt.
   */
  lemma {:induction false} AwaitDeviceOutcome(v: View, opens: seq<OpenOutcome>)
    requires v.devfd < 0
    ensures var r := AwaitDevice(v, opens);
            && (r.view.devfd >= 0 <==> exists i | 0 <= i < |opens| :: opens[i].Opened?)
            && (r.view.devfd < 0 ==> r.attempts == |opens| && r.effects == Sleeps(|opens|))
            && (r.view.devfd >= 0 ==>
                  && 1 <= r.attempts
                  && (forall i | 0 <= i < r.attempts - 1 :: opens[i] == OpenFailed)
                  && opens[r.attempts - 1] == Opened(r.view.devfd)
                  && r.effects == Sleeps(r.attempts - 1) +
                                    [SetLed(r.view.devfd, LedValue(v.muted, v.movieMode, REFRESH_LEVEL))])
  {
    AwaitDeviceConnectsIff(v, opens);
    AwaitDeviceFailures(v, opens);
    AwaitDeviceFirstSuccess(v, opens);
    AwaitDeviceSuccessEffects(v, opens);
  }

  /** The reconnect loop gets a device exactly when some attempt succeeds. */
  lemma {:induction false} AwaitDeviceConnectsIff(v: View, opens: seq<OpenOutcome>)
    requires v.devfd < 0
    ensures AwaitDevice(v, opens).view.devfd >= 0 <==> exists i | 0 <= i < |opens| :: opens[i].Opened?
    decreases |opens|
  {
    if opens != [] && opens[0] == OpenFailed {
      AwaitDeviceConnectsIff(v.(devfd := -1), opens[1..]);
      if exists i | 0 <= i < |opens| :: opens[i].Opened? {
        var i :| 0 <= i < |opens| && opens[i].Opened?;
        assert opens[1..][i - 1].Opened?;
      }
      if exists j | 0 <= j < |opens[1..]| :: opens[1..][j].Opened? {
        var j :| 0 <= j < |opens[1..]| && opens[1..][j].Opened?;
        assert opens[j + 1].Opened?;
      }
    }
  }

  /** Without a device, every attempt failed and each was followed by a one-second sleep. */
  lemma {:induction false} AwaitDeviceFailures(v: View, opens: seq<OpenOutcome>)
    requires v.devfd < 0
    ensures var r := AwaitDevice(v, opens);
            r.view.devfd < 0 ==> r.attempts == |opens| && r.effects == Sleeps(|opens|)
    decreases |opens|
  {
    if opens != [] && opens[0] == OpenFailed {
      AwaitDeviceFailures(v.(devfd := -1), opens[1..]);
    }
  }

  /** With a device, the loop stopped at the first successful attempt. */
  lemma {:induction false} AwaitDeviceFirstSuccess(v: View, opens: seq<OpenOutcome>)
    requires v.devfd < 0
    ensures var r := AwaitDevice(v, opens);
            r.view.devfd >= 0 ==>
              && 1 <= r.attempts
              && (forall i | 0 <= i < r.attempts - 1 :: opens[i] == OpenFailed)
              && opens[r.attempts - 1] == Opened(r.view.devfd)
    decreases |opens|
  {
    if opens != [] && opens[0] == OpenFailed {
      AwaitDeviceFirstSuccess(v.(devfd := -1), opens[1..]);
      assert forall i | 1 <= i < |opens| :: opens[i] == opens[1..][i - 1];
    }
  }

  /** With a device, the loop slept once per failed attempt and then refreshed the LED once. */
  lemma {:induction false} AwaitDeviceSuccessEffects(v: View, opens: seq<OpenOutcome>)
    requires v.devfd < 0
    ensures var r := AwaitDevice(v, opens);
            r.view.devfd >= 0 ==>
              r.effects == Sleeps(r.attempts - 1) + [SetLed(r.view.devfd, LedValue(v.muted, v.movieMode, REFRESH_LEVEL))]
    decreases |opens|
  {
    if opens != [] && opens[0] == OpenFailed {
      AwaitDeviceSuccessEffects(v.(devfd := -1), opens[1..]);
    }
  }

  /** The inputs of one iteration of the `while (1)` loop. */
  datatype LoopInput = LoopInput(opens: seq<OpenOutcome>, poll: PollOutcome, read: ReadOutcome, nowMs: int)

  /**
   * One iteration of the `while (1)` loop: the reconnect loop, then, once a
   * device is open, the rest of the body. An iteration whose open attempts run
   * out leaves the loop still waiting for the device.
   */
  function Iteration(v: View, s: Settings, input: LoopInput): (r: StepResult)
    ensures r.view.muted == v.muted && r.view.polledFd == v.polledFd
    ensures r.view.devfd < 0 ==> r.action == None && !r.exited
  {
    var reconnected := AwaitDevice(v, input.opens);
    if reconnected.view.devfd < 0 then
      StepResult(reconnected.view, reconnected.effects, None, false)
    else
      var step := Transition(reconnected.view, s, input.poll, input.read);
      StepResult(step.view, reconnected.effects + step.effects, step.action, step.exited)
  }

  /** The inputs `poll` could actually deliver in this iteration, once the device is open. */
  predicate IterationAdmissible(v: View, s: Settings, input: LoopInput)
  {
    var reconnected := AwaitDevice(v, input.opens);
    reconnected.view.devfd >= 0 ==> Admissible(reconnected.view, s, input.poll, input.nowMs)
  }

  /** The daemon's globals, updated in place by the control loop. */
  class DaemonState {
    const settings: Settings
    /** Declared by the daemon and never assigned. */
    var muted: bool
    var movieMode: bool
    var knobDepressed: bool
    var knobDepressedMs: int
    var devfd: int
    /** `fds[0].fd`: set once before the loop and never updated. */
    var polledFd: int
    /** The effects so far. */
    var trace: seq<Effect>

    function Current(): View
      reads this`muted, this`movieMode, this`knobDepressed, this`knobDepressedMs, this`devfd, this`polledFd
    {
      View(muted, movieMode, knobDepressed, knobDepressedMs, devfd, polledFd)
    }

    /**
     * The state when the loop starts: main has tried to open the device once
     * (main.c:173) and hands the result to `poll` (main.c:202).
     */
    constructor (settings: Settings, initialOpen: OpenOutcome)
      ensures this.settings == settings && trace == []
      ensures Current() == View(false, false, false, 0, OpenedFd(initialOpen), OpenedFd(initialOpen))
    {
      this.settings := settings;
      muted, movieMode, knobDepressed, knobDepressedMs := false, false, false, 0;
      devfd := OpenedFd(initialOpen);
      polledFd := devfd;
      trace := [];
    }

    /** exec_command (main.c:30-39). */
    method ExecCommand(command: Option<string>)
      modifies this`trace
      ensures trace == old(trace) + Dispatched(command)
    {
      if command.None? || command.value == "" {
        return;
      }
      trace := trace + [Exec(command.value)];
    }

    /** update_led (main.c:53-59): set_led writes to the current `devfd`. */
    method UpdateLed(requested: nat)
      modifies this`trace
      ensures trace == old(trace) + [SetLed(devfd, LedValue(muted, movieMode, requested))]
    {
      if muted || movieMode {
        trace := trace + [SetLed(devfd, 0)];
      } else {
        trace := trace + [SetLed(devfd, requested)];
      }
    }

    /** The reconnect loop (main.c:214-226), over the outcomes of successive `open` calls. */
    method Reconnect(opens: seq<OpenOutcome>) returns (attempts: nat)
      modifies this`devfd, this`trace
      ensures var r := AwaitDevice(old(Current()), opens);
              Current() == r.view && trace == old(trace) + r.effects && attempts == r.attempts
    {
      ghost var start, startTrace := Current(), trace;
      attempts := 0;
      while devfd < 0 && attempts < |opens|
        invariant attempts <= |opens|
        invariant Current() == start.(devfd := devfd)
        invariant Reconnecting(start, startTrace, opens, devfd, trace, attempts)
      {
        ReconnectingStep(start, startTrace, opens, devfd, trace, attempts);
        devfd := OpenedFd(opens[attempts]);
        attempts := attempts + 1;
        if devfd == -1 {
          trace := trace + [Sleep(1)];
        } else {
          UpdateLed(REFRESH_LEVEL);
        }
      }
    }

    /**
     * The loop body after the reconnect loop (main.c:228-296), with the outcome
     * of `poll` and of `read` as inputs and the time at the start of the
     * iteration in milliseconds.
     */
    method Step(poll: PollOutcome, read: ReadOutcome, nowMs: int) returns (exited: bool)
      requires devfd >= 0
      requires Admissible(Current(), settings, poll, nowMs)
      modifies this`movieMode, this`knobDepressed, this`knobDepressedMs, this`devfd, this`trace
      ensures var r := Transition(old(Current()), settings, poll, read);
              Current() == r.view && trace == old(trace) + r.effects && exited == r.exited
    {
      if poll == PollFailed {
        return true;
      }
      if knobDepressed && poll == TimedOut {
        knobDepressed := false;
        if settings.longPressCommand.None? {
          movieMode := !movieMode;
        } else {
          ExecCommand(settings.longPressCommand);
        }
        UpdateLed(REFRESH_LEVEL);
      }
      if poll == Ready {
        match read
        case ShortRead =>
          devfd := -1;
        case FullRecord(ev) =>
          if ev.evType == EV_REL && ev.code == 7 {
            if ev.value == -1 {
              ExecCommand(settings.counterClockWiseCommand);
            } else if ev.value == 1 {
              ExecCommand(settings.clockWiseCommand);
            }
          } else if ev.evType == EV_KEY && ev.code == 256 {
            if ev.value == 1 {
              knobDepressed := true;
              knobDepressedMs := ev.timeMs;
            } else if ev.value == 0 && knobDepressed {
              knobDepressed := false;
              ExecCommand(settings.knobCommand);
            }
          }
      }
      return false;
    }

    /** One iteration of the `while (1)` loop (main.c:209-297). */
    method Iterate(input: LoopInput) returns (exited: bool)
      requires IterationAdmissible(Current(), settings, input)
      modifies this`movieMode, this`knobDepressed, this`knobDepressedMs, this`devfd, this`trace
      ensures var r := Iteration(old(Current()), settings, input);
              Current() == r.view && trace == old(trace) + r.effects && exited == r.exited
    {
      var _ := Reconnect(input.opens);
      if devfd < 0 {
        return false;
      }
      exited := Step(input.poll, input.read, input.nowMs);
    }
  }
}
