/**
 * The shared layer under both tool families (pkg/common): where the
 * configuration files are, the injected process runner, and how a failed
 * run is turned into an error that keeps the program's own output.
 */
module Common {
  import opened Wrappers
  import opened GoStrings
  import GoOs

  /** The parts of the process environment the path lookups read. */
  datatype Host = Host(vars: map<string, string>, home: string)

  /** `os.Getenv`: an unset variable reads as the empty string. */
  function Getenv(h: Host, key: string): (v: string)
    ensures key in h.vars ==> v == h.vars[key]
    ensures key !in h.vars ==> v == ""
  {
    if key in h.vars then h.vars[key] else ""
  }

  /**
   * `filepath.Join` of two elements without its lexical clean-up: an empty
   * element is skipped and two non-empty ones are joined by `/`. Joins of
   * more elements nest it from the left.
   */
  function Join(a: string, b: string): (p: string)
    ensures p == "" <==> a == "" && b == ""
  {
    if a == "" then b else if b == "" then a else a + "/" + b
  }

  /**
   * The lookup both configuration paths share: an explicit variable wins,
   * then `$XDG_CONFIG_HOME/<dir>/<file>`, then `<home>/.config/<dir>/<file>`.
   */
  function ConfigPath(h: Host, variable: string, dir: string, file: string): string {
    var explicit := Getenv(h, variable);
    if explicit != "" then explicit
    else
      var xdg := Getenv(h, "XDG_CONFIG_HOME");
      var base := if xdg == "" then Join(h.home, ".config") else xdg;
      Join(Join(base, dir), file)
  }

  /** `GetTaskrcPath`: the shared lookup for `TASKRC` and `task/taskrc`. */
  function GetTaskrcPath(h: Host): string {
    ConfigPath(h, "TASKRC", "task", "taskrc")
  }

  /** `GetTimewConfigPath`: the same lookup for `TIMEW_CONFIG`. */
  function GetTimewConfigPath(h: Host): string {
    ConfigPath(h, "TIMEW_CONFIG", "timewarrior", "timewarrior.cfg")
  }

  /**
   * `TASKRC` verbatim when set, whatever `XDG_CONFIG_HOME` says; else the
   * XDG location; else the default location under the home directory.
   */
  lemma TaskrcPathPrecedence(h: Host)
    ensures Getenv(h, "TASKRC") != "" ==> GetTaskrcPath(h) == Getenv(h, "TASKRC")
    ensures Getenv(h, "TASKRC") == "" && Getenv(h, "XDG_CONFIG_HOME") != "" ==>
              GetTaskrcPath(h) == Getenv(h, "XDG_CONFIG_HOME") + "/" + "task" + "/" + "taskrc"
    ensures Getenv(h, "TASKRC") == "" && Getenv(h, "XDG_CONFIG_HOME") == "" ==>
              GetTaskrcPath(h) == Join(h.home, ".config") + "/" + "task" + "/" + "taskrc"
  {
  }

  /** The same precedence with `TIMEW_CONFIG` and `timewarrior/timewarrior.cfg`. */
  lemma TimewConfigPathPrecedence(h: Host)
    ensures Getenv(h, "TIMEW_CONFIG") != "" ==> GetTimewConfigPath(h) == Getenv(h, "TIMEW_CONFIG")
    ensures Getenv(h, "TIMEW_CONFIG") == "" && Getenv(h, "XDG_CONFIG_HOME") != "" ==>
              GetTimewConfigPath(h) == Getenv(h, "XDG_CONFIG_HOME") + "/" + "timewarrior" + "/" + "timewarrior.cfg"
    ensures Getenv(h, "TIMEW_CONFIG") == "" && Getenv(h, "XDG_CONFIG_HOME") == "" ==>
              GetTimewConfigPath(h) == Join(h.home, ".config") + "/" + "timewarrior" + "/" + "timewarrior.cfg"
  {
  }

  /**
   * The text of the error `RunCommand` returns on failure:
   * `<name> error: <err>\nOutput: <out>`. It keeps both the underlying error
   * and everything the program printed.
   */
  function ErrorText(name: string, err: string, out: string): (msg: string)
    ensures Contains(msg, err) && Contains(msg, out)
  {
    var msg := name + " error: " + err + "\nOutput: " + out;
    assert msg[|name| + 8..|name| + 8 + |err|] == err;
    assert msg[|msg| - |out|..|msg|] == out;
    msg
  }

  /**
   * What `RunCommand` makes of the runner's answer: success passes the
   * output through untouched; failure drops the output from the first
   * result and folds it, with the error, into the error text.
   */
  function Wrap(name: string, o: Outcome): (r: Outcome)
    ensures r.err.None? <==> o.err.None?
    ensures o.err.None? ==> r.output == o.output
    ensures o.err.Some? ==> r.output == "" && r.err.value == ErrorText(name, o.err.value, o.output)
  {
    if o.err.Some? then Outcome("", Some(ErrorText(name, o.err.value, o.output))) else o
  }

  /**
   * The injected `CommandRunner`, as the test double that records the
   * program name, environment and argument vector of its last call and
   * answers with a programmed output and error. `fs` is the temporary
   * directory the spawned program can read; `seen` is what it held when the
   * last call ran.
   */
  class CommandRunner {
    const fs: GoOs.TempDir
    var lastCmd: string
    var lastEnv: seq<string>
    var lastArgs: seq<string>
    var output: string
    var err: Option<string>
    ghost var calls: nat
    ghost var seen: map<string, string>

    constructor (fs: GoOs.TempDir, output: string, err: Option<string>)
      ensures this.fs == fs && this.output == output && this.err == err && calls == 0
      ensures lastCmd == "" && lastEnv == [] && lastArgs == []
    {
      this.fs := fs;
      this.output := output;
      this.err := err;
      lastCmd, lastEnv, lastArgs := "", [], [];
      calls := 0;
      seen := map[];
    }

    /** The answer the next call will get. */
    function Programmed(): Outcome
      reads this
    {
      Outcome(output, err)
    }

    /** Exactly one call happened since the old state, with these values. */
    twostate predicate RanOnce(name: string, env: seq<string>, args: seq<string>)
      reads this
    {
      && lastCmd == name && lastEnv == env && lastArgs == args
      && calls == old(calls) + 1
      && output == old(output) && err == old(err)
    }

    /** `Run`: records `name`, `env`, `baseArgs ++ args` and the directory as it stands. */
    method Run(name: string, env: seq<string>, baseArgs: seq<string>, args: seq<string>) returns (o: Outcome)
      modifies this
      ensures RanOnce(name, env, baseArgs + args)
      ensures seen == fs.files
      ensures o == old(Programmed())
    {
      lastCmd, lastEnv, lastArgs := name, env, baseArgs + args;
      calls := calls + 1;
      seen := fs.files;
      o := Outcome(output, err);
    }
  }

  /**
   * `RunCommand`: one call of the runner with everything passed through,
   * then the error wrapping of `Wrap`.
   */
  method RunCommand(runner: CommandRunner, name: string, env: seq<string>, baseArgs: seq<string>, args: seq<string>)
    returns (o: Outcome)
    modifies runner
    ensures runner.RanOnce(name, env, baseArgs + args)
    ensures runner.seen == runner.fs.files
    ensures o == Wrap(name, old(runner.Programmed()))
  {
    var ran := runner.Run(name, env, baseArgs, args);
    if ran.err.Some? {
      return Outcome("", Some(ErrorText(name, ran.err.value, ran.output)));
    }
    return ran;
  }

  /**
   * `DefaultRunner.Run`: spawns `name` with `baseArgs ++ args`, the
   * inherited environment followed by `env`, and returns the combined
   * output trimmed of surrounding white space, together with the error,
   * whether or not there was one.
   */
  method DefaultRun(os: GoOs.Os, name: string, env: seq<string>, baseArgs: seq<string>, args: seq<string>)
    returns (o: Outcome)
    modifies os
    ensures os.SpawnedOnce(name, baseArgs + args, os.environ + env, None)
    ensures o == Outcome(TrimSpace(old(os.combined)), old(os.exitErr))
  {
    var finalArgs := baseArgs + args;
    var spawned := os.CombinedOutput(name, finalArgs, Some(os.environ + env), None);
    o := Outcome(TrimSpace(spawned.output), spawned.err);
  }

  /**
   * Whatever the program printed survives into a failed run's error, and a
   * successful run's output comes back unchanged.
   */
  lemma FailureKeepsOutput(name: string, o: Outcome)
    ensures o.err.Some? ==>
              && Wrap(name, o).err.Some?
              && Contains(Wrap(name, o).err.value, o.output)
              && Contains(Wrap(name, o).err.value, o.err.value)
    ensures o.err.None? ==> Wrap(name, o) == o
  {
  }
}
