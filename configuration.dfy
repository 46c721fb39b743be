/**
 * The settings the control loop runs with, and where main looks for the
 * configuration file that supplies them (main.c:15-21, main.c:61-76,
 * main.c:94-116, main.c:156).
 */
module Configuration {
  import opened Wrappers
  import opened CommandLine

  /**
   * The settings globals. A command that is NULL is None; a NULL command and
   * an empty one differ only for `longPressCommand`.
   */
  datatype Settings = Settings(
    dev: string,
    knobCommand: Option<string>,
    longPressCommand: Option<string>,
    clockWiseCommand: Option<string>,
    counterClockWiseCommand: Option<string>,
    longPressMs: int)

  /** The settings before any configuration file is read. */
  const DEFAULT_SETTINGS: Settings := Settings("/dev/input/powermate", None, None, None, None, 1000)

  const SYSTEM_CONFIG_PATH: string := "/etc/powermate.toml"
  const CONFIG_FILE_NAME: string := "/powermate.toml"

  /**
   * `get_config_home`, after the XDG Base Directory Specification (section
   * "Environment variables"): `$XDG_CONFIG_HOME` when it is set and not empty,
   * otherwise `$HOME/.config`, and nothing when `$HOME` is unset too.
   */
  function GetConfigHome(xdgConfigHome: Option<string>, home: Option<string>): (r: Option<string>)
    ensures xdgConfigHome.Some? && xdgConfigHome.value != "" ==> r == xdgConfigHome
    ensures (xdgConfigHome.None? || xdgConfigHome.value == "") && home.Some? ==>
              r == Some(home.value + "/.config")
    ensures r.None? <==> (xdgConfigHome.None? || xdgConfigHome.value == "") && home.None?
    ensures r.Some? ==> r.value != ""
  {
    if xdgConfigHome.Some? && xdgConfigHome.value != "" then xdgConfigHome
    else if home.None? then None
    else Some(home.value + "/.config")
  }

  /** The outcome of the walk over the `-c` arguments. */
  datatype PathScan =
    | Scanned(path: string)
    | Unreadable(path: string)

  /**
   * The first loop of the configuration block (main.c:95-103) from some point
   * on, with `path` the contents of `config_path` so far: every `-c` file
   * replaces it, and one that is not readable ends main with status 1.
   */
  function ScanConfigArgs(args: seq<string>, path: string, readable: set<string>): (r: PathScan)
    requires OptionsWellFormed(args)
    decreases |args|
    ensures r.Unreadable? ==> r.path !in readable
    ensures r.Scanned? ==> r.path == path || r.path in readable
  {
    if args == [] then Scanned(path)
    else if args[0] == "-c" then
      if args[1] in readable then ScanConfigArgs(args[2..], args[1], readable) else Unreadable(args[1])
    else ScanConfigArgs(args[1..], path, readable)
  }

  /** What main does with the configuration. */
  datatype ConfigSource =
    | LoadFrom(path: string)
    | UseDefaults
    | CannotAccess(path: string)

  /**
   * The configuration main settles on: `readable` holds the paths for which
   * `access(path, R_OK)` succeeds.
   */
  function ConfigSourceFor(argv: seq<string>, xdgConfigHome: Option<string>, home: Option<string>,
                           readable: set<string>): ConfigSource
    requires |argv| >= 1 && OptionsWellFormed(argv[1..])
  {
    match ScanConfigArgs(argv[1..], "", readable)
    case Unreadable(p) => CannotAccess(p)
    case Scanned(p) =>
      var configHome := GetConfigHome(xdgConfigHome, home);
      var fromHome :=
        if p == "" && configHome.Some? then
          (if configHome.value + CONFIG_FILE_NAME in readable then configHome.value + CONFIG_FILE_NAME else "")
        else p;
      var chosen := if fromHome == "" then SYSTEM_CONFIG_PATH else fromHome;
      if chosen in readable then LoadFrom(chosen) else UseDefaults
  }

  /**
   * The configuration block of main (main.c:94-116, main.c:156), run after the
   * arguments passed validation.
   */
  method SelectConfigSource(argv: seq<string>, xdgConfigHome: Option<string>, home: Option<string>,
                            readable: set<string>) returns (r: ConfigSource)
    requires |argv| >= 1 && OptionsWellFormed(argv[1..])
    ensures r == ConfigSourceFor(argv, xdgConfigHome, home, readable)
  {
    var configPath := "";
    var i := 1;
    while i < |argv|
      invariant 1 <= i <= |argv|
      invariant OptionsWellFormed(argv[i..])
      invariant ScanConfigArgs(argv[1..], "", readable) == ScanConfigArgs(argv[i..], configPath, readable)
    {
      if argv[i] == "-c" {
        assert argv[i..][2..] == argv[i + 2..];
        i := i + 1;
        configPath := argv[i];
        if configPath !in readable {
          return CannotAccess(configPath);
        }
      } else {
        assert argv[i..][1..] == argv[i + 1..];
      }
      i := i + 1;
    }
    var configHome := GetConfigHome(xdgConfigHome, home);
    if configPath == "" && configHome.Some? {
      configPath := configHome.value + CONFIG_FILE_NAME;
      if configPath !in readable {
        configPath := "";
      }
    }
    if configPath == "" {
      configPath := SYSTEM_CONFIG_PATH;
    }
    if configPath in readable {
      r := LoadFrom(configPath);
    } else {
      r := UseDefaults;
    }
  }

  /**
   * The walk over the `-c` arguments fails on the first unreadable file and
   * otherwise ends with the last file given, or with `path` when there is none.
   */
  lemma {:induction false} ScanFindsLastFile(args: seq<string>, path: string, readable: set<string>)
    requires OptionsWellFormed(args)
    ensures var r := ScanConfigArgs(args, path, readable);
            var files := ConfigFiles(args);
            && (r.Unreadable? <==> exists f :: f in files && f !in readable)
            && (r.Unreadable? ==> r.path in files && r.path !in readable)
            && (r.Unreadable? ==> exists k | 0 <= k < |files| ::
                  files[k] == r.path && forall j | 0 <= j < k :: files[j] in readable)
            && (r.Scanned? ==> r.path == if files == [] then path else files[|files| - 1])
    decreases |args|
  {
    if args == [] {
    } else if args[0] == "-c" {
      if args[1] in readable {
        ScanFindsLastFile(args[2..], args[1], readable);
        var r := ScanConfigArgs(args, path, readable);
        var rest := ConfigFiles(args[2..]);
        if r.Unreadable? {
          var k :| 0 <= k < |rest| && rest[k] == r.path && forall j | 0 <= j < k :: rest[j] in readable;
          assert ConfigFiles(args)[k + 1] == r.path;
          assert forall j | 0 <= j < k + 1 :: ConfigFiles(args)[j] in readable by {
            forall j | 0 <= j < k + 1 ensures ConfigFiles(args)[j] in readable {
              if j > 0 { assert ConfigFiles(args)[j] == rest[j - 1]; }
            }
          }
        }
      } else {
        assert ConfigFiles(args)[0] == args[1];
      }
    } else {
      ScanFindsLastFile(args[1..], path, readable);
    }
  }

  /**
   * Precedence of the configuration file: the last `-c` file, then
   * `<config home>/powermate.toml` when readable, then /etc/powermate.toml.
   * The empty path is never readable (`access("")` fails).
   */
  lemma ConfigPrecedence(argv: seq<string>, xdgConfigHome: Option<string>, home: Option<string>,
                         readable: set<string>)
    requires |argv| >= 1 && OptionsWellFormed(argv[1..])
    requires "" !in readable
    ensures var r := ConfigSourceFor(argv, xdgConfigHome, home, readable);
            var files := ConfigFiles(argv[1..]);
            var configHome := GetConfigHome(xdgConfigHome, home);
            && (files != [] && (forall f | f in files :: f in readable) ==> r == LoadFrom(files[|files| - 1]))
            && (forall f | f in files && f !in readable :: r.CannotAccess?)
            && (files == [] && configHome.Some? && configHome.value + CONFIG_FILE_NAME in readable ==>
                  r == LoadFrom(configHome.value + CONFIG_FILE_NAME))
            && (files == [] && (configHome.None? || configHome.value + CONFIG_FILE_NAME !in readable) ==>
                  r == if SYSTEM_CONFIG_PATH in readable then LoadFrom(SYSTEM_CONFIG_PATH) else UseDefaults)
  {
    ScanFindsLastFile(argv[1..], "", readable);
  }
}
