# powermate-linux control loop, modelled in Dafny

The daemon turns the events of a USB rotary knob into shell commands and
drives the knob's LED. All of it is in `main.c`. This project models these
parts of it:

- the control loop, as a `DaemonState` class over the daemon's globals;
- the command dispatcher `exec_command`;
- the LED policy `update_led`;
- the command-line validation;
- the choice of configuration file.

Nothing in the model performs input or output. Each outcome of `open`, `poll`,
`read`, `access` and `getenv` is an input. Each command run, LED write and
pause is an `Effect`, appended to a trace in order.

Modules:

- `Effects` (`effects.dfy`): the effect trace and `Dispatched`, the effects of
  `exec_command`. A NULL or empty command runs nothing. Any other command runs
  once.
- `Led` (`led.dfy`): `LedValue`, the value `update_led` writes. The LED is off
  while the daemon is muted or in movie mode. The refresh level is
  `sizeof(unsigned int) >> 1`, which is 2 and not a mid-range brightness.
- `Events` (`events.dfy`): the classification of one `struct input_event`.
  `EV_REL`/`REL_DIAL` (code 7) with value -1 or +1 is a rotation.
  `EV_KEY`/`BTN_0` (code 256) with value 1 or 0 is a press or release edge.
  Every other record is ignored.
- `CommandLine` (`command_line.dfy`): the argument validation loop, the grammar
  it accepts, and the later rescan for `-d`.
- `Configuration` (`configuration.dfy`): the settings, `get_config_home` (after
  the "Environment variables" section of the XDG Base Directory Specification)
  and the choice of configuration file.
- `Daemon` (`daemon.dfy`):
  - the pure one-iteration semantics: the timeout (`PollTimeout`), the loop
    body after reconnection (`Transition`), the reconnect loop (`AwaitDevice`)
    and a whole iteration (`Iteration`);
  - the class `DaemonState`, whose methods mirror the C code statement by
    statement and are proved equal to those functions.
  - The lemmas `AwaitDeviceConnectsIff`, `AwaitDeviceFailures`,
    `AwaitDeviceFirstSuccess` and `AwaitDeviceSuccessEffects` are the parts of
    `AwaitDeviceOutcome`. `AwaitDeviceStep`, `Reconnecting` and
    `ReconnectingStep` are the loop invariant of `DaemonState.Reconnect`.
- `DaemonProperties` (`daemon_properties.dfy`): runs of many iterations
  (`Run`), and the properties of single iterations and of runs. `RunUnfolds`
  and `QuietActionPrefix` are proof steps of the run lemmas.

Behaviour of the code a reader might not expect:

- The timeout is not clamped at 0. An overdue long press never fires: `poll`
  waits for the next record, which is handled as usual, so a release clicks
  instead (`OverdueLongPressNeverFires`). This happens whenever the loop falls
  behind the deadline, for instance while a slow rotation command runs with
  the knob held.
- `poll` returning 0 means no descriptor is ready. The timer branch and the
  read branch therefore never both run in one iteration.
- A failed LED write does not discard the device handle.
- The descriptor handed to `poll` (`fds[0].fd`) is set once, before the loop.
  It stays apart from `devfd`, which the reconnect loop changes. The old
  descriptor is never closed.
- When the first open fails, `fds[0].fd` is -1. POSIX `poll` never reports a
  negative descriptor ready, so once the device is plugged in no record is read
  and no command is dispatched (`DeviceAbsentAtStartNeverDispatches`).

Admissible inputs: `Admissible` allows a timed-out `poll` only after a timeout
of at least 0. It allows a ready `poll` only on a descriptor that is not
negative. A reconnect whose list of open outcomes holds no success ends the
model's iteration with `devfd` still negative. The next iteration resumes the
same `while (devfd < 0)` loop.

## Model

| member | source | states |
|---|---|---|
| `Effects.Dispatched` | main.c:30-39 | runs nothing exactly when the command is NULL or empty, otherwise runs that command exactly once |
| `Led.LedValue` | main.c:53-59 | the written value is 0 exactly when muted, in movie mode or asked for 0; otherwise it is the requested value, never more |
| `Events.Classify` | main.c:276-294 | dial ±1 is a rotation (clockwise iff +1), button 1/0 a press (carrying the record's time) or release edge, every other record is ignored |
| `CommandLine.ValidateArgs` | main.c:79-86 | the loop accepts the arguments exactly when they are a sequence of `-d` and `-c <file>`, the file being whatever argument follows |
| `CommandLine.Daemonize` | main.c:166-170 | the daemon detaches iff the configuration asks for it or any argument is `-d` |
| `CommandLine.DashDAsFileName` | main.c:79-86 | `-c -d` is accepted with a configuration file named `-d`; a trailing `-c` and an unknown option are refused |
| `Configuration.GetConfigHome` | main.c:61-76 | `$XDG_CONFIG_HOME` if set and non-empty, else `$HOME/.config`, else nothing; never the empty string |
| `Configuration.SelectConfigSource` | main.c:94-116 | the loop over `-c` arguments and the fallbacks give exactly `ConfigSourceFor` |
| `Configuration.ScanConfigArgs` | main.c:95-103 | the `-c` walk reports only an unreadable file as a failure, and otherwise ends with the path it started from or a readable file |
| `Configuration.ScanFindsLastFile` | main.c:95-103 | the `-c` walk fails iff some `-c` file is unreadable, naming the first unreadable one; otherwise it yields the last `-c` file |
| `Configuration.ConfigPrecedence` | main.c:94-114 | the last `-c` file wins when every `-c` file is readable, and an unreadable one refuses; without `-c` files, `<config home>/powermate.toml` if readable, then `/etc/powermate.toml` (loaded if readable, defaults otherwise) |
| `Daemon.OpenedFd` | main.c:173-174 | the kept descriptor is non-negative exactly when the open succeeded |
| `Daemon.LongPressArmed` | main.c:229 | the timer is armed only while the knob is held, never with a long-press command of "", and always when the knob is held and the command is not "" |
| `Daemon.PollTimeout` | main.c:228-239 | -1 when the timer is not armed; otherwise the wait ends exactly at the press time plus the long-press duration, with no clamp |
| `Daemon.LongPressExpiry` | main.c:254-265 | the knob is released and a long press taken; movie mode flips iff no command is set; the effects are the command's dispatch (none without a command) followed by one LED write; press time and `devfd` are kept |
| `Daemon.HandleInput` | main.c:276-294 | a record never changes `muted`, movie mode or `devfd` and never long-presses; it clicks iff it is a release edge with the knob held; the knob is held afterwards iff this is a press edge or it was held and this is not a release; only a press edge changes the press time |
| `Daemon.Transition` | main.c:241-296 | `muted` and the polled descriptor never change; only a failed poll exits; movie mode changes only by a long press with no command; `devfd` changes only to -1 on a short read; every LED write shows the overlay-adjusted refresh level |
| `Daemon.AwaitDevice` | main.c:214-226 | the reconnect loop changes nothing but `devfd`, and nothing at all when the device is open |
| `Daemon.AwaitDeviceOutcome` | main.c:214-226 | the loop gets a device iff some open succeeds; it takes the first success, sleeps once per earlier failure and refreshes the LED once on the new descriptor; failures alone only sleep |
| `Daemon.Iteration` | main.c:209-297 | an iteration keeps `muted` and the polled descriptor; while still disconnected it takes no action and does not exit |
| `Daemon.DaemonState.constructor` | main.c:173-202 | the loop starts with everything clear and both `devfd` and the polled descriptor set from the first open |
| `Daemon.DaemonState.ExecCommand` | main.c:30-39 | appends exactly the effects of `Dispatched` to the trace |
| `Daemon.DaemonState.UpdateLed` | main.c:53-59 | appends one LED write of `LedValue` to the current `devfd` |
| `Daemon.DaemonState.Reconnect` | main.c:214-226 | the loop over open attempts leaves the state, trace and attempt count given by `AwaitDevice` |
| `Daemon.DaemonState.Step` | main.c:228-296 | the loop body leaves the state and trace given by `Transition`, for poll outcomes possible under the computed timeout |
| `Daemon.DaemonState.Iterate` | main.c:209-297 | reconnect, then the body once a device is open: state and trace as `Iteration` |
| `DaemonProperties.TimedOutOnlyWhenArmed` | main.c:229-241 | a timed-out poll implies the timer is armed and not overdue, and it wakes the loop exactly at the long-press deadline |
| `DaemonProperties.SuppressedTimerNeverArms` | main.c:229-239 | with the long-press command set to "" the timeout is -1 and poll never times out |
| `DaemonProperties.OverdueLongPressWaits` | main.c:235-241 | past the deadline the timeout is negative and poll cannot time out |
| `DaemonProperties.LongPressOnTimeout` | main.c:254-265 | the knob is released, movie mode flips iff no long-press command is set, otherwise the command is dispatched, and the LED is written exactly once |
| `DaemonProperties.ButtonEdges` | main.c:283-294 | a press holds the knob and overwrites the time stamp; a release dispatches the knob command only if the knob was held; other values change nothing |
| `DaemonProperties.RotationDispatch` | main.c:276-282 | -1 dispatches the counter-clockwise command, +1 the clockwise one, other values nothing; the state never changes |
| `DaemonProperties.OtherRecordsIgnored` | main.c:276-294 | records that are neither dial nor button records change nothing and dispatch nothing |
| `DaemonProperties.ShortReadDisconnects` | main.c:270-274 | a short read sets `devfd` to -1 and dispatches nothing |
| `DaemonProperties.LedDarkUnderOverlay` | main.c:254-265 | every LED write of the loop body is 0 while muted or in movie mode, and the refresh level otherwise |
| `DaemonProperties.Run` | main.c:209-297 | over any number of iterations, `muted` and the polled descriptor never change and there is at most one action per iteration |
| `DaemonProperties.SuppressedLongPressNeverFires` | main.c:229-265 | over any run, an empty long-press command means no long press and no change of movie mode |
| `DaemonProperties.AbsentDeviceIteration` | main.c:201-245 | with a negative polled descriptor and the knob not held, an iteration takes no action and runs no command |
| `DaemonProperties.DeviceAbsentAtStartNeverDispatches` | main.c:201-226 | if the first open failed, no run ever takes an action or dispatches a command |
| `DaemonProperties.OverdueLongPressNeverFires` | main.c:229-293 | past the deadline `poll` can no longer time out, and rotations or ignored records then a release give no long press and exactly one click, as the last action |
| `DaemonProperties.QuietIteration` | main.c:276-282 | with the device open, a rotation or ignored record leaves the state unchanged and neither clicks nor long-presses |
| `DaemonProperties.PressIteration` | main.c:284-288 | with the device open, a press edge holds the knob, stores the record's time and takes no action |
| `DaemonProperties.ReleaseIteration` | main.c:289-293 | with the device open, a release edge releases the knob and clicks exactly when it was held |
| `DaemonProperties.ReleaseRun` | main.c:289-293 | a run of one release gives the single action Click iff the knob was held, and none otherwise |
| `DaemonProperties.QuietRunThenRelease` | main.c:276-294 | rotations and ignored records, then a release: one click iff the knob was held, never a long press |
| `DaemonProperties.PressThenReleaseClicksOnce` | main.c:283-294 | press, rotations or ignored records, release: exactly one click, as the last action, and no long press |
| `DaemonProperties.LongPressThenLateRelease` | main.c:254-293 | a long press at the deadline, then a late release: one long press and no click |
| `DaemonProperties.MovieModeScenario` | main.c:254-265 | press at 0 ms, timer expiry at 1000 ms, release at 1500 ms: movie mode turns on, the LED is written 0, and the release does nothing |
| `DaemonProperties.ThreeFailedOpensThenSuccess` | main.c:214-226 | three failed opens then one success: three sleeps, no command, one LED refresh on the new descriptor |

## Left out

- System calls (`open`, `read`, `write`, `poll`, `sleep`, `gettimeofday`, `access`, `getenv`): their results are inputs. Kernel semantics and the binary layout of `struct input_event` are not modelled.
- `system()` and its exit-status logging: a dispatched command is recorded as an `Exec` effect.
- Daemonisation (`fork`, `chdir`, closing the standard streams): process plumbing that does not affect the loop. Only the decision to detach is modelled (`CommandLine.Daemonize`).
- Reading the TOML configuration through tomlc99: the library is not part of this model. The settings are a given `Settings` value, and `DEFAULT_SETTINGS` holds the defaults.
- Status output on stdout and stderr: its wording is not behaviour.
- `exit(1)` after a failed `poll`: this is only the `exited` result of a step.
- A failed `write` in `set_led` is only logged, so the LED write is recorded whatever its outcome.
- Clock sources: time stamps are whole milliseconds, and a failing `gettimeofday` is not modelled.
- Daemon.PollTimeout: does not model the truncation of the 64-bit expression to the 32-bit `int timeout`, because it matters only for durations beyond about 24 days.
- Configuration.GetConfigHome: does not model the `setenv` side effect, its failure path that returns NULL, or the truncation of `$HOME/.config` to `PATH_MAX` bytes. All three come from the environment, not from the daemon's logic.
- Configuration.SelectConfigSource: does not model the unchecked `strcpy` of a `-c` argument longer than `PATH_MAX` into `config_path`. Paths are unbounded here.
