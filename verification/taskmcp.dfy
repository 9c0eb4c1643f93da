/**
 * The older, self-contained server at the repository root (taskmcp.go). It
 * spawns `task` and `timew` directly instead of going through the injected
 * runner, orders `modify` as identifier-then-keyword, and feeds imports on
 * standard input. Kept apart from the `Taskwarrior` module on purpose.
 */
module TaskMcp {
  import opened Wrappers
  import opened GoStrings
  import opened Mcp
  import Common
  import GoOs

  /** The overrides `runTask` puts before every argument list. */
  const BaseArgs: seq<string> := ["rc.confirmation=off", "rc.verbose=nothing", "rc.hooks=on"]

  /**
   * What `runTask` makes of the combined output and exit error: the output
   * trimmed of surrounding white space on success; on failure an empty
   * output and the error text `task error: <err>\nOutput: <trimmed output>`.
   */
  function TaskOutcome(o: Outcome): (r: Outcome)
    ensures r.err.None? <==> o.err.None?
    ensures o.err.None? ==> r.output == TrimSpace(o.output)
    ensures o.err.Some? ==>
              && r.output == ""
              && r.err.value == Common.ErrorText("task", o.err.value, TrimSpace(o.output))
              && Contains(r.err.value, o.err.value)
              && Contains(r.err.value, TrimSpace(o.output))
  {
    Common.Wrap("task", Outcome(TrimSpace(o.output), o.err))
  }

  /** How the `runTask`-based handlers report one spawn of `task`. */
  function TaskReply(o: Outcome): ToolResult {
    Reply(TaskOutcome(o))
  }

  /**
   * `runTask`: one spawn of `task` with the overrides, then `args`, in the
   * inherited environment and with no standard input.
   */
  method RunTask(os: GoOs.Os, args: seq<string>) returns (o: Outcome)
    modifies os
    ensures os.SpawnedOnce("task", BaseArgs + args, os.environ, None)
    ensures o == TaskOutcome(Outcome(old(os.combined), old(os.exitErr)))
  {
    var finalArgs := BaseArgs + args;
    var ran := os.CombinedOutput("task", finalArgs, None, None);
    var output := TrimSpace(ran.output);
    if ran.err.Some? {
      return Outcome("", Some(Common.ErrorText("task", ran.err.value, output)));
    }
    return Outcome(output, None);
  }

  /**
   * The filter tokens of `task_list`: the default `status:pending` is one
   * token, so it is written here already split (`ListTokensSplitDefault`
   * shows this is the split of the defaulted filter).
   */
  function ListTokens(a: Arguments): seq<string> {
    var filter := StringArg(a, "filter");
    if filter == "" then ["status:pending"] else Fields(filter)
  }

  /** The tokens are the split of the filter, or of `status:pending` when none is given. */
  lemma ListTokensSplitDefault(a: Arguments)
    ensures StringArg(a, "filter") != "" ==> ListTokens(a) == Fields(StringArg(a, "filter"))
    ensures StringArg(a, "filter") == "" ==> ListTokens(a) == Fields("status:pending") == ["status:pending"]
  {
    if StringArg(a, "filter") == "" {
      var w := "status:pending";
      assert IsToken(w);
      FieldsOfToken(w);
    }
  }

  /**
   * `task_add` and `task_log`: the keyword, the description as one token,
   * then the metadata split into tokens.
   */
  function EntryArgs(keyword: string, a: Arguments): (args: seq<string>)
    ensures |args| >= 2 && args[0] == keyword && args[1] == StringArg(a, "description")
    ensures args[2..] == Fields(StringArg(a, "metadata"))
  {
    [keyword, StringArg(a, "description")] + Fields(StringArg(a, "metadata"))
  }

  /**
   * `task_modify`: the identifier first, unsplit, then `modify`, then the
   * modifications split into tokens.
   */
  function ModifyArgs(a: Arguments): (args: seq<string>)
    ensures |args| >= 2 && args[0] == StringArg(a, "uuid") && args[1] == "modify"
    ensures args[2..] == Fields(StringArg(a, "modifications"))
  {
    [StringArg(a, "uuid"), "modify"] + Fields(StringArg(a, "modifications"))
  }

  /**
   * The guard of `task_start_stop`: `[uuid, action]` for the two accepted
   * actions, nothing for any other.
   */
  function StartStopArgs(a: Arguments): (args: Option<seq<string>>)
    ensures args.Some? <==> StringArg(a, "action") == "start" || StringArg(a, "action") == "stop"
    ensures args.Some? ==> args.value == [StringArg(a, "uuid"), StringArg(a, "action")]
  {
    var action := StringArg(a, "action");
    if action != "start" && action != "stop" then None
    else Some([StringArg(a, "uuid"), action])
  }

  /** The error `task_start_stop` answers an unknown action with. */
  const BadAction := "Action must be 'start' or 'stop'"

  method ListHandler(os: GoOs.Os, a: Arguments) returns (res: ToolResult)
    modifies os
    ensures os.SpawnedOnce("task", BaseArgs + ListTokens(a) + ["export"], os.environ, None)
    ensures res == TaskReply(Outcome(old(os.combined), old(os.exitErr)))
  {
    var filter := StringArg(a, "filter");
    var tokens: seq<string>;
    if filter == "" {
      tokens := ["status:pending"];
    } else {
      tokens := Fields(filter);
    }
    var o := RunTask(os, tokens + ["export"]);
    assert BaseArgs + (tokens + ["export"]) == BaseArgs + ListTokens(a) + ["export"];
    res := Reply(o);
  }

  method AddHandler(os: GoOs.Os, a: Arguments) returns (res: ToolResult)
    modifies os
    ensures os.SpawnedOnce("task", BaseArgs + EntryArgs("add", a), os.environ, None)
    ensures res == TaskReply(Outcome(old(os.combined), old(os.exitErr)))
  {
    var args := ["add", StringArg(a, "description")] + Fields(StringArg(a, "metadata"));
    var o := RunTask(os, args);
    res := Reply(o);
  }

  method ModifyHandler(os: GoOs.Os, a: Arguments) returns (res: ToolResult)
    modifies os
    ensures os.SpawnedOnce("task", BaseArgs + ModifyArgs(a), os.environ, None)
    ensures res == TaskReply(Outcome(old(os.combined), old(os.exitErr)))
  {
    var args := [StringArg(a, "uuid"), "modify"] + Fields(StringArg(a, "modifications"));
    var o := RunTask(os, args);
    res := Reply(o);
  }

  /**
   * `task_start_stop`: an unknown action is answered with an error result
   * and nothing is spawned; otherwise `task <uuid> <action>` runs.
   */
  method StartStopHandler(os: GoOs.Os, a: Arguments) returns (res: ToolResult)
    modifies os
    ensures StartStopArgs(a).None? ==> res == NewToolResultError(BadAction) && unchanged(os)
    ensures StartStopArgs(a).Some? ==>
              && os.SpawnedOnce("task", BaseArgs + StartStopArgs(a).value, os.environ, None)
              && res == TaskReply(Outcome(old(os.combined), old(os.exitErr)))
  {
    var uuid := StringArg(a, "uuid");
    var action := StringArg(a, "action");
    if action != "start" && action != "stop" {
      return NewToolResultError(BadAction);
    }
    var o := RunTask(os, [uuid, action]);
    res := Reply(o);
  }

  method AnnotateHandler(os: GoOs.Os, a: Arguments) returns (res: ToolResult)
    modifies os
    ensures os.SpawnedOnce("task", BaseArgs + [StringArg(a, "uuid"), "annotate", StringArg(a, "text")], os.environ, None)
    ensures res == TaskReply(Outcome(old(os.combined), old(os.exitErr)))
  {
    var o := RunTask(os, [StringArg(a, "uuid"), "annotate", StringArg(a, "text")]);
    res := Reply(o);
  }

  method LogHandler(os: GoOs.Os, a: Arguments) returns (res: ToolResult)
    modifies os
    ensures os.SpawnedOnce("task", BaseArgs + EntryArgs("log", a), os.environ, None)
    ensures res == TaskReply(Outcome(old(os.combined), old(os.exitErr)))
  {
    var args := ["log", StringArg(a, "description")] + Fields(StringArg(a, "metadata"));
    var o := RunTask(os, args);
    res := Reply(o);
  }

  method CalcHandler(os: GoOs.Os, a: Arguments) returns (res: ToolResult)
    modifies os
    ensures os.SpawnedOnce("task", BaseArgs + ["calc", StringArg(a, "expression")], os.environ, None)
    ensures res == TaskReply(Outcome(old(os.combined), old(os.exitErr)))
  {
    var o := RunTask(os, ["calc", StringArg(a, "expression")]);
    res := Reply(o);
  }

  /**
   * `task_import_bulk`: the data goes to standard input, never onto the
   * command line, under only the confirmation override. A failure reports
   * the program's raw, untrimmed output; success a fixed message.
   */
  method ImportHandler(os: GoOs.Os, a: Arguments) returns (res: ToolResult)
    modifies os
    ensures os.SpawnedOnce("task", ["rc.confirmation=off", "import"], os.environ, Some(StringArg(a, "json_data")))
    ensures res.isError <==> old(os.exitErr).Some?
    ensures res.text == if old(os.exitErr).Some? then old(os.combined) else "Import Successful"
  {
    var data := StringArg(a, "json_data");
    var o := os.CombinedOutput("task", ["rc.confirmation=off", "import"], None, Some(data));
    if o.err.Some? {
      return NewToolResultError(o.output);
    }
    return NewToolResultText("Import Successful");
  }

  /** The range `timew_context` exports: the caller's, else the current week. */
  function TimewRange(a: Arguments): (r: string)
    ensures r != ""
    ensures StringArg(a, "range") != "" ==> r == StringArg(a, "range")
    ensures StringArg(a, "range") == "" ==> r == ":week"
  {
    var range := StringArg(a, "range");
    if range == "" then ":week" else range
  }

  /**
   * `timew_context`: `timew export <range>` with standard output only. Any
   * failure is the same fixed message; success passes the output through
   * untrimmed.
   */
  method TimewHandler(os: GoOs.Os, a: Arguments) returns (res: ToolResult)
    modifies os
    ensures os.SpawnedOnce("timew", ["export", TimewRange(a)], os.environ, None)
    ensures res.isError <==> old(os.exitErr).Some?
    ensures res.text == if old(os.exitErr).Some? then "Timewarrior failed" else old(os.stdout)
  {
    var range := StringArg(a, "range");
    if range == "" {
      range := ":week";
    }
    var o := os.Output("timew", ["export", range]);
    if o.err.Some? {
      return NewToolResultError("Timewarrior failed");
    }
    return NewToolResultText(o.output);
  }

  /**
   * The modify vector determines the identifier and the modification
   * tokens, and the identifier is never split, however many words it has.
   */
  lemma ModifyVectorDeterminesInput(a1: Arguments, a2: Arguments)
    requires ModifyArgs(a1) == ModifyArgs(a2)
    ensures StringArg(a1, "uuid") == StringArg(a2, "uuid")
    ensures Fields(StringArg(a1, "modifications")) == Fields(StringArg(a2, "modifications"))
  {
    var v1, v2 := ModifyArgs(a1), ModifyArgs(a2);
    assert v1[0] == v2[0];
    assert v1[2..] == v2[2..];
  }

  /** Success passes the trimmed output through; failure keeps it in the error. */
  lemma FailedRunIsReported(o: Outcome)
    ensures TaskReply(o).isError <==> o.err.Some?
    ensures o.err.None? ==> TaskReply(o).text == TrimSpace(o.output)
    ensures o.err.Some? ==>
              && Contains(TaskReply(o).text, TrimSpace(o.output))
              && Contains(TaskReply(o).text, o.err.value)
  {
  }

  /**
   * Trimming drops only white space: the reported output differs from what
   * the program printed only by blank margins.
   */
  lemma ReportedOutputIsTrimmed(o: Outcome)
    requires o.err.None?
    ensures exists i, j :: 0 <= i <= j <= |o.output|
              && TaskReply(o).text == o.output[i..j]
              && Blank(o.output[..i]) && Blank(o.output[j..])
  {
    TrimSpaceCutsOnlySpace(o.output);
  }
}
