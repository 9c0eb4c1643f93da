/**
 * The time-tracker tool family (pkg/timewarrior): each tool call becomes one
 * `timew` invocation whose argument vector is exactly what the handler
 * builds, with no overrides and no added environment.
 */
module Timewarrior {
  import opened Wrappers
  import opened GoStrings
  import opened Mcp
  import opened Common

  /**
   * `runTimew`: one `RunCommand` for program `timew`, with no extra
   * environment and nothing placed before `args`.
   */
  method RunTimew(runner: CommandRunner, args: seq<string>) returns (o: Outcome)
    modifies runner
    ensures runner.RanOnce("timew", [], args)
    ensures o == Wrap("timew", old(runner.Programmed()))
  {
    assert [] + args == args;
    o := RunCommand(runner, "timew", [], [], args);
  }

  /** How a handler reports the outcome of its one `timew` run. */
  function TimewReply(o: Outcome): ToolResult {
    Reply(Wrap("timew", o))
  }

  /**
   * start and stop: the keyword, then the tags split on white space. The
   * tags arrive as space-free tokens holding every non-space character of
   * the input, and no tags at all when the input is blank or missing.
   */
  function TagArgs(keyword: string, tags: string): (args: seq<string>)
    ensures |args| >= 1 && args[0] == keyword
    ensures AllTokens(args[1..])
    ensures Concat(args[1..]) == NonSpace(tags)
    ensures |args| == 1 <==> Blank(tags)
  {
    var args := [keyword] + Fields(tags);
    assert args[1..] == Fields(tags);
    FieldsKeepsEveryNonSpace(tags);
    FieldsEmptyIffBlank(tags);
    args
  }

  /**
   * summary and export: the keyword, then the range as one unsplit token
   * when it is not empty.
   */
  function RangeArgs(keyword: string, range: string): (args: seq<string>)
    ensures |args| == if range == "" then 1 else 2
    ensures args[0] == keyword
    ensures range != "" ==> args[1] == range
  {
    if range == "" then [keyword] else [keyword, range]
  }

  method StartHandler(runner: CommandRunner, a: Arguments) returns (res: ToolResult)
    modifies runner
    ensures runner.RanOnce("timew", [], TagArgs("start", StringArg(a, "tags")))
    ensures res == TimewReply(old(runner.Programmed()))
  {
    var tags := StringArg(a, "tags");
    var args := ["start"] + Fields(tags);
    var o := RunTimew(runner, args);
    res := Reply(o);
  }

  method StopHandler(runner: CommandRunner, a: Arguments) returns (res: ToolResult)
    modifies runner
    ensures runner.RanOnce("timew", [], TagArgs("stop", StringArg(a, "tags")))
    ensures res == TimewReply(old(runner.Programmed()))
  {
    var tags := StringArg(a, "tags");
    var args := ["stop"] + Fields(tags);
    var o := RunTimew(runner, args);
    res := Reply(o);
  }

  method ContinueHandler(runner: CommandRunner) returns (res: ToolResult)
    modifies runner
    ensures runner.RanOnce("timew", [], ["continue"])
    ensures res == TimewReply(old(runner.Programmed()))
  {
    var o := RunTimew(runner, ["continue"]);
    res := Reply(o);
  }

  method SummaryHandler(runner: CommandRunner, a: Arguments) returns (res: ToolResult)
    modifies runner
    ensures runner.RanOnce("timew", [], RangeArgs("summary", StringArg(a, "range")))
    ensures res == TimewReply(old(runner.Programmed()))
  {
    var range := StringArg(a, "range");
    var args := ["summary"];
    if range != "" {
      args := args + [range];
    }
    var o := RunTimew(runner, args);
    res := Reply(o);
  }

  method ExportHandler(runner: CommandRunner, a: Arguments) returns (res: ToolResult)
    modifies runner
    ensures runner.RanOnce("timew", [], RangeArgs("export", StringArg(a, "range")))
    ensures res == TimewReply(old(runner.Programmed()))
  {
    var range := StringArg(a, "range");
    var args := ["export"];
    if range != "" {
      args := args + [range];
    }
    var o := RunTimew(runner, args);
    res := Reply(o);
  }

  /** `timew_raw`: the fields of the command, with no keyword injected. */
  method RawHandler(runner: CommandRunner, a: Arguments) returns (res: ToolResult)
    modifies runner
    ensures runner.RanOnce("timew", [], Fields(StringArg(a, "command")))
    ensures res == TimewReply(old(runner.Programmed()))
  {
    var o := RunTimew(runner, Fields(StringArg(a, "command")));
    res := Reply(o);
  }

  /** A blank raw command runs `timew` with no arguments at all. */
  lemma RawBlankRunsBareTimew(a: Arguments)
    ensures Fields(StringArg(a, "command")) == [] <==> Blank(StringArg(a, "command"))
  {
    FieldsEmptyIffBlank(StringArg(a, "command"));
  }

  /**
   * On failure a handler's result is an error whose text contains what
   * `timew` printed and the error; on success the text is the output.
   */
  lemma FailedRunIsReported(o: Outcome)
    ensures TimewReply(o).isError <==> o.err.Some?
    ensures o.err.Some? ==> Contains(TimewReply(o).text, o.output) && Contains(TimewReply(o).text, o.err.value)
    ensures o.err.None? ==> TimewReply(o).text == o.output
  {
    FailureKeepsOutput("timew", o);
  }
}
