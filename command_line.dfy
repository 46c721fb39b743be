/** The command line of the daemon: `powermate [-c file] [-d]` (main.c:79-86, main.c:166-170). */
module CommandLine {

  /**
   * The arguments after the program name, as the validation loop of main.c
   * walks them: `-d` stands alone, `-c` takes the next argument, whatever it
   * is, as a file name, and anything else is refused.
   */
  predicate OptionsWellFormed(args: seq<string>)
    decreases |args|
  {
    if args == [] then true
    else if args[0] == "-d" then OptionsWellFormed(args[1..])
    else if args[0] == "-c" then |args| >= 2 && OptionsWellFormed(args[2..])
    else false
  }

  /** The file names given with `-c`, in order. */
  function ConfigFiles(args: seq<string>): seq<string>
    requires OptionsWellFormed(args)
    decreases |args|
  {
    if args == [] then []
    else if args[0] == "-d" then ConfigFiles(args[1..])
    else [args[1]] + ConfigFiles(args[2..])
  }

  /**
   * The validation loop of main: `ok` is false exactly when main prints the
   * usage message and returns 0. `argv[0]`, the program name, is always there
   * (the usage message prints it).
   */
  method ValidateArgs(argv: seq<string>) returns (ok: bool)
    requires |argv| >= 1
    ensures ok <==> OptionsWellFormed(argv[1..])
  {
    var i := 1;
    while i < |argv|
      invariant 1 <= i <= |argv|
      invariant OptionsWellFormed(argv[1..]) == OptionsWellFormed(argv[i..])
    {
      if argv[i] != "-c" && argv[i] != "-d" {
        return false;
      }
      if argv[i] == "-c" {
        i := i + 1;
        if i == |argv| {
          return false;
        }
        assert argv[i - 1..][2..] == argv[i + 1..];
      } else {
        assert argv[i..][1..] == argv[i + 1..];
      }
      i := i + 1;
    }
    return true;
  }

  /**
   * The second scan of main (main.c:166-170): the daemon detaches when the
   * configuration asks for it or when any argument at all is `-d`, even one the
   * validation loop took as the file name of a `-c`.
   */
  method Daemonize(argv: seq<string>, configured: bool) returns (daemonize: bool)
    ensures daemonize <==> configured || exists i | 1 <= i < |argv| :: argv[i] == "-d"
  {
    daemonize := configured;
    var i := 1;
    while i < |argv|
      invariant 1 <= i <= |argv| || (argv == [] && i == 1)
      invariant daemonize <==> configured || exists j | 1 <= j < i && j < |argv| :: argv[j] == "-d"
    {
      if argv[i] == "-d" {
        daemonize := true;
      }
      i := i + 1;
    }
  }

  /**
   * `-c -d` passes validation with a configuration file named `-d` (that the
   * rescan for `-d` still detaches is the contract of `Daemonize`).
   */
  lemma DashDAsFileName()
    ensures OptionsWellFormed(["-c", "-d"])
    ensures ConfigFiles(["-c", "-d"]) == ["-d"]
    ensures !OptionsWellFormed(["-c"]) && !OptionsWellFormed(["-x"])
  {
  }
}
