/** What the daemon does to the outside world, recorded in order instead of performed. */
module Effects {
  import opened Wrappers

  datatype Effect =
    /** `system(command)`: a shell command run to completion (main.c exec_command). */
    | Exec(command: string)
    /** A write to `fd` of one EV_MSC/MSC_PULSELED input record carrying `value` (main.c set_led). */
    | SetLed(fd: int, value: nat)
    /** `sleep(seconds)` between two failed attempts to open the device. */
    | Sleep(seconds: nat)

  /**
   * The effects of `exec_command(command)`: a NULL command (None) or an empty
   * string runs nothing; any other command is run exactly once.
   */
  function Dispatched(command: Option<string>): (fx: seq<Effect>)
    ensures |fx| <= 1
    ensures fx == [] <==> command.None? || command.value == ""
    ensures fx != [] ==> fx[0] == Exec(command.value) && fx[0].command != ""
  {
    if command.None? || command.value == "" then [] else [Exec(command.value)]
  }

  /** True when no shell command is run by `fx`. */
  predicate NoExec(fx: seq<Effect>)
  {
    forall i | 0 <= i < |fx| :: !fx[i].Exec?
  }

  /** The number of LED writes in `fx`. */
  function LedWrites(fx: seq<Effect>): nat
  {
    if fx == [] then 0 else (if fx[0].SetLed? then 1 else 0) + LedWrites(fx[1..])
  }

  /** `n` one-second pauses. */
  function Sleeps(n: nat): (fx: seq<Effect>)
    ensures |fx| == n
    ensures forall i | 0 <= i < n :: fx[i] == Sleep(1)
  {
    if n == 0 then [] else [Sleep(1)] + Sleeps(n - 1)
  }

  /** Counting LED writes distributes over concatenation. */
  lemma {:induction false} LedWritesAppend(a: seq<Effect>, b: seq<Effect>)
    ensures LedWrites(a + b) == LedWrites(a) + LedWrites(b)
  {
    if a == [] {
      assert a + b == b;
    } else {
      assert (a + b)[1..] == a[1..] + b;
      LedWritesAppend(a[1..], b);
    }
  }

  /** Two command-free effect lists in a row run no command. */
  lemma NoExecAppend(a: seq<Effect>, b: seq<Effect>)
    requires NoExec(a) && NoExec(b)
    ensures NoExec(a + b)
  {
  }

  /** Pauses hold no LED write and run no command. */
  lemma {:induction false} SleepsAreInert(n: nat)
    ensures LedWrites(Sleeps(n)) == 0 && NoExec(Sleeps(n))
  {
    if n > 0 {
      assert Sleeps(n)[1..] == Sleeps(n - 1);
      SleepsAreInert(n - 1);
    }
  }
}
