/**
 * The task-manager tool family (pkg/taskwarrior): each tool call becomes one
 * `task` invocation whose argument vector is the fixed overrides, then the
 * filter tokens, then the operation keyword, then the modification tokens,
 * with `TASKRC` pointing at the resolved configuration file.
 */
module Taskwarrior {
  import opened Wrappers
  import opened GoStrings
  import opened Mcp
  import opened Common
  import GoOs

  /** The overrides every invocation starts with. */
  const BaseArgs: seq<string> := ["rc.confirmation=off", "rc.verbose=nothing", "rc.hooks=on"]

  /** One `task` invocation as argument groups, in the order they are emitted. */
  datatype TaskCommand = TaskCommand(
    overrides: seq<string>,
    filters: seq<string>,
    command: string,
    modifications: seq<string>)

  /** The arguments `Run` places after `BaseArgs`. */
  function Args(c: TaskCommand): seq<string> {
    c.overrides + c.filters + (if c.command == "" then [] else [c.command]) + c.modifications
  }

  /**
   * Each group of a command lands in its own slot, in the fixed order, and
   * an empty keyword is left out rather than passed as an empty token.
   */
  lemma ArgsSlots(c: TaskCommand)
    ensures var args := Args(c);
      && |args| == |c.overrides| + |c.filters| + (if c.command == "" then 0 else 1) + |c.modifications|
      && args[..|c.overrides|] == c.overrides
      && args[|c.overrides|..|c.overrides| + |c.filters|] == c.filters
      && (c.command != "" ==> args[|c.overrides| + |c.filters|] == c.command)
      && args[|args| - |c.modifications|..] == c.modifications
  {
    var args := Args(c);
    var k := c.overrides + c.filters + (if c.command == "" then [] else [c.command]);
    assert args == k + c.modifications;
    assert k[..|c.overrides|] == c.overrides;
  }

  /** The single environment entry every invocation carries. */
  function TaskrcEnv(h: Host): seq<string> {
    ["TASKRC=" + GetTaskrcPath(h)]
  }

  /** How a handler reports the outcome of its one `task` run. */
  function TaskReply(o: Outcome): ToolResult {
    Reply(Wrap("task", o))
  }

  /**
   * `TaskCommand.Run`: the vector is built by successive appends and handed,
   * with the overrides and the `TASKRC` entry, to `RunCommand`.
   */
  method Run(c: TaskCommand, runner: CommandRunner, h: Host) returns (o: Outcome)
    modifies runner
    ensures runner.RanOnce("task", TaskrcEnv(h), BaseArgs + Args(c))
    ensures runner.seen == runner.fs.files
    ensures o == Wrap("task", old(runner.Programmed()))
  {
    var args := [] + c.overrides;
    assert args == c.overrides;
    args := args + c.filters;
    if c.command != "" {
      args := args + [c.command];
    }
    args := args + c.modifications;
    assert args == Args(c);
    var env := ["TASKRC=" + GetTaskrcPath(h)];
    o := RunCommand(runner, "task", env, BaseArgs, args);
  }

  // ---------------------------------------------------------------------
  // The commands each handler builds

  /**
   * The filter `task_list` uses: the caller's, or `status:pending` when the
   * caller's is missing or empty.
   */
  function ListFilter(a: Arguments): (f: string)
    ensures f != ""
    ensures StringArg(a, "filter") != "" ==> f == StringArg(a, "filter")
    ensures StringArg(a, "filter") == "" ==> f == "status:pending"
  {
    var filter := StringArg(a, "filter");
    if filter == "" then "status:pending" else filter
  }

  /**
   * The filter tokens of `task_list`: the default is one token, so it is
   * written here already split (`ListTokensSplitDefault` shows this is the
   * split of the defaulted filter).
   */
  function ListTokens(a: Arguments): seq<string> {
    var filter := StringArg(a, "filter");
    if filter == "" then ["status:pending"] else Fields(filter)
  }

  function AddCommand(a: Arguments): TaskCommand {
    TaskCommand([], [], "add", [StringArg(a, "description")] + Fields(StringArg(a, "metadata")))
  }

  function ModifyCommand(a: Arguments): TaskCommand {
    TaskCommand([], Fields(StringArg(a, "filter")), "modify", Fields(StringArg(a, "modifications")))
  }

  /** done, delete, start, stop: the identifier alone selects the task. */
  function IdCommand(op: string, a: Arguments): TaskCommand {
    TaskCommand([], [StringArg(a, "uuid")], op, [])
  }

  /** annotate, denote, append, prepend: identifier, keyword, one text token. */
  function IdTextCommand(op: string, a: Arguments): TaskCommand {
    TaskCommand([], [StringArg(a, "uuid")], op, [StringArg(a, "text")])
  }

  function CalcCommand(a: Arguments): TaskCommand {
    TaskCommand([], [], "calc", [StringArg(a, "expression")])
  }

  function PurgeCommand(a: Arguments): TaskCommand {
    TaskCommand([], Fields(StringArg(a, "filter")), "purge", [])
  }

  /** `task_raw`: the first field is the keyword, the rest modifications. */
  function RawCommand(a: Arguments): TaskCommand {
    var fields := Fields(StringArg(a, "command"));
    if |fields| > 0 then TaskCommand([], [], fields[0], fields[1..])
    else TaskCommand([], [], "", [])
  }

  /**
   * `task_config` modifications: nothing without a name (the value is then
   * ignored), the name alone when the value is missing, not a string or
   * empty, and name and value otherwise.
   */
  function ConfigModifications(name: string, value: Option<string>): (m: seq<string>)
    ensures name == "" ==> m == []
    ensures name != "" && (value == None || value == Some("")) ==> m == [name]
    ensures name != "" && value.Some? && value.value != "" ==> m == [name, value.value]
  {
    if name == "" then []
    else if value.Some? && value.value != "" then [name, value.value]
    else [name]
  }

  // ---------------------------------------------------------------------
  // Handlers

  method ListHandler(runner: CommandRunner, h: Host, a: Arguments) returns (res: ToolResult)
    modifies runner
    ensures runner.RanOnce("task", TaskrcEnv(h), BaseArgs + ListTokens(a) + ["export"])
    ensures res == TaskReply(old(runner.Programmed()))
  {
    var filter := StringArg(a, "filter");
    var tokens: seq<string>;
    if filter == "" {
      tokens := ["status:pending"];
    } else {
      tokens := Fields(filter);
    }
    var cmd := TaskCommand([], tokens, "export", []);
    assert Args(cmd) == ListTokens(a) + ["export"];
    var o := Run(cmd, runner, h);
    assert BaseArgs + Args(cmd) == BaseArgs + ListTokens(a) + ["export"];
    res := Reply(o);
  }

  method AddHandler(runner: CommandRunner, h: Host, a: Arguments) returns (res: ToolResult)
    modifies runner
    ensures runner.RanOnce("task", TaskrcEnv(h),
              BaseArgs + ["add", StringArg(a, "description")] + Fields(StringArg(a, "metadata")))
    ensures res == TaskReply(old(runner.Programmed()))
  {
    var description, metadata := StringArg(a, "description"), Fields(StringArg(a, "metadata"));
    var cmd := AddCommand(a);
    assert Args(cmd) == ["add", description] + metadata by {
      assert Args(cmd) == [] + [] + ["add"] + ([description] + metadata);
    }
    var o := Run(cmd, runner, h);
    assert BaseArgs + Args(cmd) == BaseArgs + ["add", description] + metadata;
    res := Reply(o);
  }

  method ModifyHandler(runner: CommandRunner, h: Host, a: Arguments) returns (res: ToolResult)
    modifies runner
    ensures runner.RanOnce("task", TaskrcEnv(h),
              BaseArgs + Fields(StringArg(a, "filter")) + ["modify"] + Fields(StringArg(a, "modifications")))
    ensures res == TaskReply(old(runner.Programmed()))
  {
    var cmd := ModifyCommand(a);
    assert Args(cmd) == Fields(StringArg(a, "filter")) + ["modify"] + Fields(StringArg(a, "modifications"));
    var o := Run(cmd, runner, h);
    assert BaseArgs + Args(cmd)
        == BaseArgs + Fields(StringArg(a, "filter")) + ["modify"] + Fields(StringArg(a, "modifications"));
    res := Reply(o);
  }

  /** The shared body of done, delete, start and stop. */
  method IdHandler(op: string, runner: CommandRunner, h: Host, a: Arguments) returns (res: ToolResult)
    requires op != ""
    modifies runner
    ensures runner.RanOnce("task", TaskrcEnv(h), BaseArgs + [StringArg(a, "uuid"), op])
    ensures res == TaskReply(old(runner.Programmed()))
  {
    assert Args(IdCommand(op, a)) == [StringArg(a, "uuid"), op];
    var o := Run(IdCommand(op, a), runner, h);
    res := Reply(o);
  }

  method DoneHandler(runner: CommandRunner, h: Host, a: Arguments) returns (res: ToolResult)
    modifies runner
    ensures runner.RanOnce("task", TaskrcEnv(h), BaseArgs + [StringArg(a, "uuid"), "done"])
    ensures res == TaskReply(old(runner.Programmed()))
  {
    res := IdHandler("done", runner, h, a);
  }

  method DeleteHandler(runner: CommandRunner, h: Host, a: Arguments) returns (res: ToolResult)
    modifies runner
    ensures runner.RanOnce("task", TaskrcEnv(h), BaseArgs + [StringArg(a, "uuid"), "delete"])
    ensures res == TaskReply(old(runner.Programmed()))
  {
    res := IdHandler("delete", runner, h, a);
  }

  method StartHandler(runner: CommandRunner, h: Host, a: Arguments) returns (res: ToolResult)
    modifies runner
    ensures runner.RanOnce("task", TaskrcEnv(h), BaseArgs + [StringArg(a, "uuid"), "start"])
    ensures res == TaskReply(old(runner.Programmed()))
  {
    res := IdHandler("start", runner, h, a);
  }

  method StopHandler(runner: CommandRunner, h: Host, a: Arguments) returns (res: ToolResult)
    modifies runner
    ensures runner.RanOnce("task", TaskrcEnv(h), BaseArgs + [StringArg(a, "uuid"), "stop"])
    ensures res == TaskReply(old(runner.Programmed()))
  {
    res := IdHandler("stop", runner, h, a);
  }

  /** The shared body of annotate, denote, append and prepend. */
  method IdTextHandler(op: string, runner: CommandRunner, h: Host, a: Arguments) returns (res: ToolResult)
    requires op != ""
    modifies runner
    ensures runner.RanOnce("task", TaskrcEnv(h), BaseArgs + [StringArg(a, "uuid"), op, StringArg(a, "text")])
    ensures res == TaskReply(old(runner.Programmed()))
  {
    assert Args(IdTextCommand(op, a)) == [StringArg(a, "uuid"), op, StringArg(a, "text")];
    var o := Run(IdTextCommand(op, a), runner, h);
    res := Reply(o);
  }

  method AnnotateHandler(runner: CommandRunner, h: Host, a: Arguments) returns (res: ToolResult)
    modifies runner
    ensures runner.RanOnce("task", TaskrcEnv(h), BaseArgs + [StringArg(a, "uuid"), "annotate", StringArg(a, "text")])
    ensures res == TaskReply(old(runner.Programmed()))
  {
    res := IdTextHandler("annotate", runner, h, a);
  }

  method DenoteHandler(runner: CommandRunner, h: Host, a: Arguments) returns (res: ToolResult)
    modifies runner
    ensures runner.RanOnce("task", TaskrcEnv(h), BaseArgs + [StringArg(a, "uuid"), "denote", StringArg(a, "text")])
    ensures res == TaskReply(old(runner.Programmed()))
  {
    res := IdTextHandler("denote", runner, h, a);
  }

  method AppendHandler(runner: CommandRunner, h: Host, a: Arguments) returns (res: ToolResult)
    modifies runner
    ensures runner.RanOnce("task", TaskrcEnv(h), BaseArgs + [StringArg(a, "uuid"), "append", StringArg(a, "text")])
    ensures res == TaskReply(old(runner.Programmed()))
  {
    res := IdTextHandler("append", runner, h, a);
  }

  method PrependHandler(runner: CommandRunner, h: Host, a: Arguments) returns (res: ToolResult)
    modifies runner
    ensures runner.RanOnce("task", TaskrcEnv(h), BaseArgs + [StringArg(a, "uuid"), "prepend", StringArg(a, "text")])
    ensures res == TaskReply(old(runner.Programmed()))
  {
    res := IdTextHandler("prepend", runner, h, a);
  }

  /** The shared body of undo, tags, projects, udas, diagnostics and stats. */
  method KeywordHandler(op: string, runner: CommandRunner, h: Host) returns (res: ToolResult)
    requires op != ""
    modifies runner
    ensures runner.RanOnce("task", TaskrcEnv(h), BaseArgs + [op])
    ensures res == TaskReply(old(runner.Programmed()))
  {
    assert Args(TaskCommand([], [], op, [])) == [op];
    var o := Run(TaskCommand([], [], op, []), runner, h);
    res := Reply(o);
  }

  method UndoHandler(runner: CommandRunner, h: Host) returns (res: ToolResult)
    modifies runner
    ensures runner.RanOnce("task", TaskrcEnv(h), BaseArgs + ["undo"])
    ensures res == TaskReply(old(runner.Programmed()))
  {
    res := KeywordHandler("undo", runner, h);
  }

  method TagsHandler(runner: CommandRunner, h: Host) returns (res: ToolResult)
    modifies runner
    ensures runner.RanOnce("task", TaskrcEnv(h), BaseArgs + ["tags"])
    ensures res == TaskReply(old(runner.Programmed()))
  {
    res := KeywordHandler("tags", runner, h);
  }

  method ProjectsHandler(runner: CommandRunner, h: Host) returns (res: ToolResult)
    modifies runner
    ensures runner.RanOnce("task", TaskrcEnv(h), BaseArgs + ["projects"])
    ensures res == TaskReply(old(runner.Programmed()))
  {
    res := KeywordHandler("projects", runner, h);
  }

  method UdasHandler(runner: CommandRunner, h: Host) returns (res: ToolResult)
    modifies runner
    ensures runner.RanOnce("task", TaskrcEnv(h), BaseArgs + ["udas"])
    ensures res == TaskReply(old(runner.Programmed()))
  {
    res := KeywordHandler("udas", runner, h);
  }

  method DiagnosticsHandler(runner: CommandRunner, h: Host) returns (res: ToolResult)
    modifies runner
    ensures runner.RanOnce("task", TaskrcEnv(h), BaseArgs + ["diagnostics"])
    ensures res == TaskReply(old(runner.Programmed()))
  {
    res := KeywordHandler("diagnostics", runner, h);
  }

  method StatsHandler(runner: CommandRunner, h: Host) returns (res: ToolResult)
    modifies runner
    ensures runner.RanOnce("task", TaskrcEnv(h), BaseArgs + ["stats"])
    ensures res == TaskReply(old(runner.Programmed()))
  {
    res := KeywordHandler("stats", runner, h);
  }

  method CalcHandler(runner: CommandRunner, h: Host, a: Arguments) returns (res: ToolResult)
    modifies runner
    ensures runner.RanOnce("task", TaskrcEnv(h), BaseArgs + ["calc", StringArg(a, "expression")])
    ensures res == TaskReply(old(runner.Programmed()))
  {
    assert Args(CalcCommand(a)) == ["calc", StringArg(a, "expression")];
    var o := Run(CalcCommand(a), runner, h);
    res := Reply(o);
  }

  method RawHandler(runner: CommandRunner, h: Host, a: Arguments) returns (res: ToolResult)
    modifies runner
    ensures runner.RanOnce("task", TaskrcEnv(h), BaseArgs + Fields(StringArg(a, "command")))
    ensures res == TaskReply(old(runner.Programmed()))
  {
    var fields := Fields(StringArg(a, "command"));
    var cmd := TaskCommand([], [], "", []);
    if |fields| > 0 {
      cmd := cmd.(command := fields[0]);
      cmd := cmd.(modifications := fields[1..]);
    }
    assert Args(cmd) == fields by {
      if |fields| > 0 {
        assert fields == [fields[0]] + fields[1..];
      }
    }
    var o := Run(cmd, runner, h);
    res := Reply(o);
  }

  method ConfigHandler(runner: CommandRunner, h: Host, a: Arguments) returns (res: ToolResult)
    modifies runner
    ensures runner.RanOnce("task", TaskrcEnv(h),
              BaseArgs + ["config"] + ConfigModifications(StringArg(a, "name"), LookupString(a, "value")))
    ensures res == TaskReply(old(runner.Programmed()))
  {
    var name := StringArg(a, "name");
    var value := LookupString(a, "value");
    var cmd := TaskCommand([], [], "config", []);
    if name != "" {
      cmd := cmd.(modifications := [name]);
      if value.Some? && value.value != "" {
        cmd := cmd.(modifications := cmd.modifications + [value.value]);
      }
    }
    assert cmd.modifications == ConfigModifications(name, value);
    assert Args(cmd) == ["config"] + cmd.modifications;
    var o := Run(cmd, runner, h);
    assert BaseArgs + Args(cmd) == BaseArgs + ["config"] + cmd.modifications;
    res := Reply(o);
  }

  method PurgeHandler(runner: CommandRunner, h: Host, a: Arguments) returns (res: ToolResult)
    modifies runner
    ensures runner.RanOnce("task", TaskrcEnv(h), BaseArgs + Fields(StringArg(a, "filter")) + ["purge"])
    ensures res == TaskReply(old(runner.Programmed()))
  {
    var cmd := PurgeCommand(a);
    assert Args(cmd) == Fields(StringArg(a, "filter")) + ["purge"];
    var o := Run(cmd, runner, h);
    assert BaseArgs + Args(cmd) == BaseArgs + Fields(StringArg(a, "filter")) + ["purge"];
    res := Reply(o);
  }

  /** The pattern `task_import` hands to `os.CreateTemp`, split at its `*`. */
  const ImportPrefix: string := "task_import_"
  const ImportSuffix: string := ".json"

  /**
   * `task_import`: the JSON goes into a fresh temporary file whose path is
   * the one modification of an `import` command. The file is removed on
   * every path once it exists, so the temporary directory ends as it began.
   * `task` runs only once the file holds the data, and reads it from the
   * same directory.
   */
  method ImportHandler(runner: CommandRunner, tmp: GoOs.TempDir, h: Host, a: Arguments)
    returns (res: ToolResult)
    requires runner.fs == tmp
    modifies runner, tmp
    ensures tmp.files == old(tmp.files)
    ensures tmp.random == old(tmp.random) && tmp.createErr == old(tmp.createErr) && tmp.writeErr == old(tmp.writeErr)
    ensures var path := old(tmp.NextName(ImportPrefix, ImportSuffix));
      && (old(tmp.createErr).Some? ==>
            res == NewToolResultError(old(tmp.createErr).value) && unchanged(runner))
      && (old(tmp.createErr).None? && path in old(tmp.files) ==>
            res.isError && unchanged(runner))
      && (old(tmp.createErr).None? && path !in old(tmp.files) && old(tmp.writeErr).Some? ==>
            res == NewToolResultError(old(tmp.writeErr).value) && unchanged(runner))
      && (old(tmp.createErr).None? && path !in old(tmp.files) && old(tmp.writeErr).None? ==>
            && runner.RanOnce("task", TaskrcEnv(h), BaseArgs + ["import", path])
            && res == TaskReply(old(runner.Programmed()))
            && runner.seen == old(tmp.files)[path := StringArg(a, "json_data")])
  {
    var data := StringArg(a, "json_data");
    var path, err := tmp.CreateTemp(ImportPrefix, ImportSuffix);
    if err.Some? {
      return NewToolResultError(err.value);
    }
    // From here on the deferred `os.Remove(path)` runs on every return.
    var werr := tmp.WriteString(path, data);
    if werr.Some? {
      tmp.Remove(path);
      res := NewToolResultError(werr.value);
      return;
    }
    assert Args(TaskCommand([], [], "import", [path])) == ["import", path];
    var o := Run(TaskCommand([], [], "import", [path]), runner, h);
    res := Reply(o);
    tmp.Remove(path);
  }

  // ---------------------------------------------------------------------
  // Properties of the vectors

  /** The child process sees `TASKRC` set to the resolved path, whatever it inherited. */
  lemma TaskrcReachesChild(environ: seq<string>, h: Host)
    ensures GoOs.EnvValue(environ + TaskrcEnv(h), "TASKRC") == Some(GetTaskrcPath(h))
  {
    GoOs.LastAssignmentWins(environ, "TASKRC", GetTaskrcPath(h));
  }

  /**
   * The tokens are the split of the defaulted filter, so with no filter
   * `task_list` selects by the one token `status:pending`.
   */
  lemma ListTokensSplitDefault(a: Arguments)
    ensures ListTokens(a) == Fields(ListFilter(a))
    ensures StringArg(a, "filter") == "" ==> ListTokens(a) == ["status:pending"]
  {
    if StringArg(a, "filter") == "" {
      var w := "status:pending";
      assert IsToken(w);
      FieldsOfToken(w);
    }
  }

  /**
   * A filter of white space alone is not empty, so no default applies, and
   * it splits into no tokens: `task_list` then exports every task.
   */
  lemma ListBlankFilterSelectsAll(a: Arguments)
    requires StringArg(a, "filter") != "" && Blank(StringArg(a, "filter"))
    ensures ListTokens(a) == []
  {
    FieldsEmptyIffBlank(StringArg(a, "filter"));
  }

  /**
   * `task_add` passes the description as one token right after the keyword,
   * spaces and all, and the metadata as space-free tokens that together
   * hold every non-space character of it.
   */
  lemma AddKeepsDescriptionWhole(a: Arguments)
    ensures var v := Args(AddCommand(a));
      && |v| >= 2 && v[0] == "add" && v[1] == StringArg(a, "description")
      && AllTokens(v[2..])
      && Concat(v[2..]) == NonSpace(StringArg(a, "metadata"))
  {
    var v := Args(AddCommand(a));
    assert v[2..] == Fields(StringArg(a, "metadata"));
    FieldsKeepsEveryNonSpace(StringArg(a, "metadata"));
  }

  /**
   * The vector `task_add` produces determines the description exactly and
   * the metadata up to white space.
   */
  lemma AddVectorDeterminesInput(a1: Arguments, a2: Arguments)
    requires Args(AddCommand(a1)) == Args(AddCommand(a2))
    ensures StringArg(a1, "description") == StringArg(a2, "description")
    ensures Fields(StringArg(a1, "metadata")) == Fields(StringArg(a2, "metadata"))
  {
    var d1, f1 := StringArg(a1, "description"), Fields(StringArg(a1, "metadata"));
    var d2, f2 := StringArg(a2, "description"), Fields(StringArg(a2, "metadata"));
    var v1, v2 := ["add", d1] + f1, ["add", d2] + f2;
    assert Args(AddCommand(a1)) == v1;
    assert Args(AddCommand(a2)) == v2;
    assert v1[1] == d1 && v2[1] == d2;
    assert v1[2..] == f1 && v2[2..] == f2;
  }

  /**
   * In the identifier-based operations the identifier is one token before
   * the keyword, and the text one token after it, however many spaces
   * either holds; an empty identifier is passed on as an empty token.
   */
  lemma IdentifierIsOneToken(op: string, a: Arguments)
    requires op != ""
    ensures Args(IdCommand(op, a)) == [StringArg(a, "uuid"), op]
    ensures Args(IdTextCommand(op, a)) == [StringArg(a, "uuid"), op, StringArg(a, "text")]
  {
  }

  /** `task_raw` passes the fields of its input and nothing else. */
  lemma {:induction false} RawIsFields(a: Arguments)
    ensures Args(RawCommand(a)) == Fields(StringArg(a, "command"))
    ensures Args(RawCommand(a)) == [] <==> Blank(StringArg(a, "command"))
  {
    var fields := Fields(StringArg(a, "command"));
    if |fields| > 0 {
      assert fields == [fields[0]] + fields[1..];
    }
    FieldsEmptyIffBlank(StringArg(a, "command"));
  }

  /** Space-free tokens joined by spaces reach `task` unchanged through `task_raw`. */
  lemma RawPassesTokensThrough(a: Arguments, ws: seq<string>)
    requires AllTokens(ws) && StringArg(a, "command") == Unwords(ws)
    ensures Args(RawCommand(a)) == ws
  {
    RawIsFields(a);
    FieldsUnwords(ws);
  }

  /** The temporary file's name carries the `task_import` marker. */
  lemma ImportPathIsMarked(dir: string, random: string)
    ensures Contains(dir + "/" + ImportPrefix + random + ImportSuffix, "task_import")
  {
    var p := dir + "/" + ImportPrefix + random + ImportSuffix;
    var i := |dir| + 1;
    assert p[i..i + 11] == "task_import";
  }

  /**
   * On failure a handler's result is an error whose text contains what
   * `task` printed and the error it ended with; on success the text is the
   * output, verbatim.
   */
  lemma FailedRunIsReported(o: Outcome)
    ensures TaskReply(o).isError <==> o.err.Some?
    ensures o.err.Some? ==> Contains(TaskReply(o).text, o.output) && Contains(TaskReply(o).text, o.err.value)
    ensures o.err.None? ==> TaskReply(o).text == o.output
  {
    FailureKeepsOutput("task", o);
  }
}
