/**
 * Stand-ins for the operating-system calls the command layer makes:
 * spawning a program (`os/exec`) and the temporary file used by the task
 * import (`os.CreateTemp`, `WriteString`, `os.Remove`). Each object records
 * what it was asked to do and answers with a programmed result, so that the
 * callers' argument vectors, environments and clean-up can be stated
 * exactly.
 */
module GoOs {
  import opened Wrappers

  /**
   * The value the child process sees for `key` in the environment list
   * `env`: `os/exec` drops earlier duplicates of a key, so the last
   * `key=value` entry wins, and a key with no entry is unset.
   */
  function EnvValue(env: seq<string>, key: string): (v: Option<string>)
    ensures v.None? <==> forall i :: 0 <= i < |env| ==> !(key + "=" <= env[i])
    ensures v.Some? ==>
              exists i :: 0 <= i < |env| && env[i] == key + "=" + v.value
                && forall j :: i < j < |env| ==> !(key + "=" <= env[j])
  {
    var k := LastEntry(env, key);
    if k < 0 then None
    else
      var prefix := key + "=";
      assert env[k] == prefix + env[k][|prefix|..];
      Some(env[k][|prefix|..])
  }

  /** The index of the last entry of `env` that assigns `key`, or -1 when none does. */
  function LastEntry(env: seq<string>, key: string): (k: int)
    ensures -1 <= k < |env|
    ensures k >= 0 ==> key + "=" <= env[k]
    ensures forall j :: k < j < |env| ==> !(key + "=" <= env[j])
    decreases |env|
  {
    if env == [] then -1
    else if key + "=" <= env[|env| - 1] then |env| - 1
    else
      var k := LastEntry(env[..|env| - 1], key);
      assert forall j :: k < j < |env| - 1 ==> env[j] == env[..|env| - 1][j];
      k
  }

  /** An entry appended after the inherited environment overrides it. */
  lemma LastAssignmentWins(env: seq<string>, key: string, value: string)
    ensures EnvValue(env + [key + "=" + value], key) == Some(value)
  {
    var last := key + "=" + value;
    assert (env + [last])[|env|] == last;
    assert last[..|key + "="|] == key + "=";
    assert last[|key + "="|..] == value;
  }

  /**
   * The process table as seen by one `exec.Command` call. `environ` is the
   * inherited environment (`os.Environ()`); `stdout`, `combined` and
   * `exitErr` are what the next program will print and how it will end.
   */
  class Os {
    const environ: seq<string>
    var stdout: string
    var combined: string
    var exitErr: Option<string>

    var lastName: string
    var lastArgs: seq<string>
    var lastEnv: seq<string>
    var lastStdin: Option<string>
    ghost var spawns: nat

    constructor (environ: seq<string>, stdout: string, combined: string, exitErr: Option<string>)
      ensures this.environ == environ && this.stdout == stdout && this.combined == combined
      ensures this.exitErr == exitErr && spawns == 0
    {
      this.environ := environ;
      this.stdout := stdout;
      this.combined := combined;
      this.exitErr := exitErr;
      lastName, lastArgs, lastEnv, lastStdin := "", [], [], None;
      spawns := 0;
    }

    /** The programmed results are left as they were. */
    twostate predicate KeepsProgram()
      reads this
    {
      stdout == old(stdout) && combined == old(combined) && exitErr == old(exitErr)
    }

    /** Exactly one program was spawned since the old state, as described. */
    twostate predicate SpawnedOnce(name: string, args: seq<string>, env: seq<string>, stdin: Option<string>)
      reads this
    {
      && lastName == name && lastArgs == args && lastEnv == env && lastStdin == stdin
      && spawns == old(spawns) + 1 && KeepsProgram()
    }

    /**
     * `cmd.CombinedOutput()` for `exec.Command(name, args...)`: `env` is
     * `cmd.Env` (`None` leaves it nil, which inherits `environ`) and `stdin`
     * is `cmd.Stdin` (`None` reads from the null device). Returns standard
     * output and standard error merged, untrimmed.
     */
    method CombinedOutput(name: string, args: seq<string>, env: Option<seq<string>>, stdin: Option<string>)
      returns (o: Outcome)
      modifies this
      ensures SpawnedOnce(name, args, if env.Some? then env.value else environ, stdin)
      ensures o == Outcome(combined, exitErr)
    {
      lastName, lastArgs, lastStdin := name, args, stdin;
      lastEnv := if env.Some? then env.value else environ;
      spawns := spawns + 1;
      o := Outcome(combined, exitErr);
    }

    /**
     * `cmd.Output()` for `exec.Command(name, args...)` with nothing else
     * set: only standard output is returned.
     */
    method Output(name: string, args: seq<string>) returns (o: Outcome)
      modifies this
      ensures SpawnedOnce(name, args, environ, None)
      ensures o == Outcome(stdout, exitErr)
    {
      lastName, lastArgs, lastStdin, lastEnv := name, args, None, environ;
      spawns := spawns + 1;
      o := Outcome(stdout, exitErr);
    }
  }

  /**
   * The temporary directory: `files` maps each path to its contents.
   * `random` is the random part `os.CreateTemp` will pick next;
   * `createErr` and `writeErr` program failures of the next create or write.
   */
  class TempDir {
    const dir: string
    var files: map<string, string>
    var random: string
    var createErr: Option<string>
    var writeErr: Option<string>

    constructor (dir: string, files: map<string, string>, random: string,
                 createErr: Option<string>, writeErr: Option<string>)
      ensures this.dir == dir && this.files == files && this.random == random
      ensures this.createErr == createErr && this.writeErr == writeErr
    {
      this.dir := dir;
      this.files := files;
      this.random := random;
      this.createErr := createErr;
      this.writeErr := writeErr;
    }

    /**
     * The name `CreateTemp` gives for a pattern split at its `*`. `dir` is
     * taken to have no trailing separator, so one `/` is inserted.
     */
    function NextName(prefix: string, suffix: string): string
      reads this
    {
      dir + "/" + prefix + random + suffix
    }

    /**
     * `os.CreateTemp("", prefix + "*" + suffix)`: creates a new empty file
     * and never reuses an existing name.
     */
    method CreateTemp(prefix: string, suffix: string) returns (path: string, err: Option<string>)
      modifies this
      ensures random == old(random) && createErr == old(createErr) && writeErr == old(writeErr)
      ensures err.None? <==> old(createErr).None? && old(NextName(prefix, suffix)) !in old(files)
      ensures old(createErr).Some? ==> err == old(createErr)
      ensures err.None? ==> path == old(NextName(prefix, suffix)) && files == old(files)[path := ""]
      ensures err.Some? ==> files == old(files)
    {
      path := NextName(prefix, suffix);
      if createErr.Some? {
        err := createErr;
      } else if path in files {
        err := Some("open " + path + ": file exists");
      } else {
        err := None;
        files := files[path := ""];
      }
    }

    /** `f.WriteString(data)` on the file at `path`. */
    method WriteString(path: string, data: string) returns (err: Option<string>)
      requires path in files
      modifies this
      ensures random == old(random) && createErr == old(createErr) && writeErr == old(writeErr)
      ensures err == old(writeErr)
      ensures err.None? ==> files == old(files)[path := data]
      ensures err.Some? ==> files == old(files)
    {
      err := writeErr;
      if err.None? {
        files := files[path := data];
      }
    }

    /** `os.Remove(path)`, its error ignored as the callers do. */
    method Remove(path: string)
      modifies this
      ensures random == old(random) && createErr == old(createErr) && writeErr == old(writeErr)
      ensures files == old(files) - {path}
    {
      files := files - {path};
    }
  }
}
