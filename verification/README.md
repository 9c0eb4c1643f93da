# warmcp: command construction and result translation, in Dafny

warmcp is an MCP server that exposes the `task` (Taskwarrior) and `timew`
(Timewarrior) command-line programs as tools. Each tool call arrives as a
map of string fields. The server turns it into one exact argument vector
(and, for `task`, one environment entry). It runs the program and turns the
program's output and exit error into a text result or an error result.

This project models that layer and proves what it promises:

- `GoStrings`: Go's `strings.Fields` and `strings.TrimSpace`, over Go's
  `unicode.IsSpace` set. Proved: `Fields` yields non-empty space-free tokens
  holding every non-space character; it is empty exactly for blank input;
  it inverts joining tokens with spaces; a single token splits into itself.
  `TrimSpace` cuts only white space
  from the ends and is idempotent.
- `Mcp`: the argument map (`StringArg` defaults a missing or non-string
  field to `""`) and the shared handler tail `Reply`.
- `GoOs`: stand-ins for `os/exec` (`Os`, which records the program, vector,
  environment and standard input of the last spawn and answers with a
  programmed result) and for the temporary directory (`TempDir`).
- `Common` (pkg/common/common.go): configuration-path precedence,
  `RunCommand`'s error wrapping, `DefaultRunner.Run`, and the injected runner
  as the class `CommandRunner`, the recording test double.
- `Taskwarrior` (pkg/taskwarrior/taskwarrior.go): `TaskCommand`, its `Run`,
  and all handlers, each a method that makes at most one runner call:
  `task_import` makes none when the temporary file cannot be created or
  written. Each method states the recorded vector and environment and the
  result.
- `Timewarrior` (pkg/timewarrior/timewarrior.go): `runTimew` and its
  handlers.
- `TaskMcp` (taskmcp.go): the older root-level server, which spawns
  processes directly. It is kept as a separate lineage: `modify` puts the
  identifier before the keyword, and import sends its data on standard input.

Every handler's ensures states its exact argument vector, written out or
through a named vector function (`TagArgs`, `RangeArgs`, `ListTokens`,
`EntryArgs`, `ModifyArgs`, `StartStopArgs`, `ConfigModifications`);
`Taskwarrior.Run` states its vector through `Args`. Lemmas state what those
vectors guarantee.

Two places where the code does not do what its own text suggests; the model
follows the code:

- The `task_list` tool description says `Default: status:pending`
  (pkg/taskwarrior/taskwarrior.go:63), but the default applies only to a
  missing or empty filter. A filter of white space only is not empty, so it
  gets no default and splits into no tokens: the call exports every task
  (`Taskwarrior.ListBlankFilterSelectsAll`).
- pkg/timewarrior/timewarrior.go:13 calls `RunCommand` with one argument
  too few for the signature at pkg/common/common.go:58, so that package does
  not build as written. The model takes the evident intent: program `timew`,
  no extra environment, no override tokens, the vector equal to the
  handler's arguments.

## Model

| member | source | states |
|---|---|---|
| GoStrings.IsSpace | pkg/taskwarrior/taskwarrior.go:158 | the white-space set of Go's `unicode.IsSpace`, which `strings.Fields` and `strings.TrimSpace` split and trim on |
| GoStrings.Fields | pkg/taskwarrior/taskwarrior.go:158 | every token is non-empty and free of white space |
| GoStrings.FieldsEmptyIffBlank | pkg/taskwarrior/taskwarrior.go:317 | splitting gives no tokens exactly when the input is all white space |
| GoStrings.FieldsKeepsEveryNonSpace | pkg/taskwarrior/taskwarrior.go:317 | the tokens, concatenated, are the input's non-space characters in order |
| GoStrings.FieldsOfToken | pkg/taskwarrior/taskwarrior.go:158 | a non-empty space-free string splits into exactly itself |
| GoStrings.FieldsSplitsAtSpace | pkg/taskwarrior/taskwarrior.go:158 | any white-space character, tab and newline included, separates fields: the fields around it are those of each side, so runs of spaces split like one |
| GoStrings.FieldsUnwords | pkg/taskwarrior/taskwarrior.go:317 | space-free tokens joined by single spaces split back into the same tokens |
| GoStrings.FieldsIdempotent | pkg/taskwarrior/taskwarrior.go:317 | re-splitting the joined tokens changes nothing |
| GoStrings.TrimSpace | pkg/common/common.go:50 | the result neither starts nor ends with white space |
| GoStrings.TrimSpaceCutsOnlySpace | pkg/common/common.go:50 | the result is a slice of the input whose cut-off margins are all white space |
| GoStrings.TrimSpaceEmptyIffBlank | pkg/common/common.go:50 | the result is empty exactly when the input is all white space |
| GoStrings.TrimSpaceIdempotent | pkg/common/common.go:50 | trimming twice equals trimming once |
| Mcp.StringArg | pkg/taskwarrior/taskwarrior.go:152-153 | a string field reads as itself; a missing or non-string field reads as "" |
| Mcp.LookupString | pkg/taskwarrior/taskwarrior.go:335 | present exactly when the field holds a string, and then equal to it |
| Mcp.Reply | pkg/taskwarrior/taskwarrior.go:161-165 | an error result exactly when the run failed, carrying the error text; otherwise the output as text |
| GoOs.EnvValue | pkg/common/common.go:48 | unset exactly when no entry starts with `key=`; otherwise the value of the last such entry |
| GoOs.LastAssignmentWins | pkg/common/common.go:48 | an entry appended after the inherited environment decides the variable's value |
| GoOs.Os.CombinedOutput | pkg/common/common.go:47-49 | exactly one spawn, recording the program, vector, environment (nil inherits) and stdin; returns the merged output and exit error |
| GoOs.Os.Output | taskmcp.go:205 | exactly one spawn in the inherited environment without stdin; returns standard output only |
| GoOs.TempDir.CreateTemp | pkg/taskwarrior/taskwarrior.go:401-404 | a new empty file under a name not in use, or an error and no change |
| GoOs.TempDir.WriteString | pkg/taskwarrior/taskwarrior.go:406 | the file holds the data, or the programmed error is returned and nothing changes |
| GoOs.TempDir.Remove | pkg/taskwarrior/taskwarrior.go:405 | the file is gone and nothing else changes |
| Common.Getenv | pkg/common/common.go:13 | a set variable reads as its value; an unset one reads as "" |
| Common.ConfigPath | pkg/common/common.go:12-35 | the lookup both path functions share; its precedence is stated by the two lemmas below |
| Common.GetTaskrcPath | pkg/common/common.go:12-22 | the taskrc lookup; `Common.TaskrcPathPrecedence` states its result |
| Common.GetTimewConfigPath | pkg/common/common.go:25-35 | the timewarrior configuration lookup; `Common.TimewConfigPathPrecedence` states its result |
| Common.Join | pkg/common/common.go:19-21 | the joined path is empty exactly when both elements are empty |
| Common.TaskrcPathPrecedence | pkg/common/common.go:12-22 | `TASKRC` verbatim when set, whatever `XDG_CONFIG_HOME` says; else `$XDG_CONFIG_HOME/task/taskrc`; else `<home>/.config/task/taskrc` |
| Common.TimewConfigPathPrecedence | pkg/common/common.go:25-35 | the same precedence with `TIMEW_CONFIG` and `timewarrior/timewarrior.cfg` |
| Common.ErrorText | pkg/common/common.go:61 | the failure text contains both the error and the captured output |
| Common.Wrap | pkg/common/common.go:60-63 | success passes the output through unchanged; failure gives "" and the error text |
| Common.CommandRunner.Run | pkg/taskwarrior/taskwarrior_test.go:21-26 | records name, environment and `baseArgs ++ args`, one call more, and the temporary directory as the program finds it; returns the programmed answer |
| Common.RunCommand | pkg/common/common.go:58-64 | the runner is called once with everything passed through, and its answer is wrapped |
| Common.DefaultRun | pkg/common/common.go:45-52 | spawns `baseArgs ++ args` with the inherited environment followed by `env`; returns the trimmed output together with the error |
| Common.FailureKeepsOutput | pkg/common/common.go:60-62 | a failed run's error contains the output and the error; a successful run is unchanged |
| Taskwarrior.Args | pkg/taskwarrior/taskwarrior.go:25-30 | the vector after the base overrides; `Taskwarrior.ArgsSlots` states its layout |
| Taskwarrior.ArgsSlots | pkg/taskwarrior/taskwarrior.go:24-31 | overrides, filters, the keyword (left out when empty) and modifications, each in its own slot in that order |
| Taskwarrior.Run | pkg/taskwarrior/taskwarrior.go:24-36 | one runner call for `task` with the single `TASKRC` entry and `baseArgs ++ Args(c)` |
| Taskwarrior.ListFilter | pkg/taskwarrior/taskwarrior.go:153-156 | the caller's filter when given, else `status:pending` |
| Taskwarrior.ListTokens | pkg/taskwarrior/taskwarrior.go:153-158 | the filter tokens of `task_list`; `Taskwarrior.ListTokensSplitDefault` states them |
| Taskwarrior.AddCommand | pkg/taskwarrior/taskwarrior.go:173-176 | the add command; `Taskwarrior.AddKeepsDescriptionWhole` and `AddVectorDeterminesInput` state its vector |
| Taskwarrior.ModifyCommand | pkg/taskwarrior/taskwarrior.go:186-193 | filters from the filter, keyword `modify`, modifications from the modifications (stated by `Taskwarrior.ModifyHandler`) |
| Taskwarrior.IdCommand | pkg/taskwarrior/taskwarrior.go:203-207 | `[uuid]` as the filter and the operation as keyword (stated by `Taskwarrior.IdHandler`) |
| Taskwarrior.IdTextCommand | pkg/taskwarrior/taskwarrior.go:231-237 | `[uuid]`, the operation and the text as one modification; `Taskwarrior.IdentifierIsOneToken` states its vector |
| Taskwarrior.CalcCommand | pkg/taskwarrior/taskwarrior.go:302-306 | keyword `calc` and the expression as one modification (stated by `Taskwarrior.CalcHandler`) |
| Taskwarrior.PurgeCommand | pkg/taskwarrior/taskwarrior.go:353-357 | the filter fields and keyword `purge` (stated by `Taskwarrior.PurgeHandler`) |
| Taskwarrior.RawCommand | pkg/taskwarrior/taskwarrior.go:317-323 | the first field as keyword and the remaining fields as modifications; an empty command for a blank input; `Taskwarrior.RawIsFields` states its vector |
| Taskwarrior.ConfigModifications | pkg/taskwarrior/taskwarrior.go:336-343 | nothing without a name; the name alone when the value is missing or empty; name and value otherwise |
| Taskwarrior.ListHandler | pkg/taskwarrior/taskwarrior.go:151-166 | runs `baseArgs ++ ListTokens ++ [export]` (the filter tokens, `status:pending` without a filter) and replies with the wrapped answer |
| Taskwarrior.AddHandler | pkg/taskwarrior/taskwarrior.go:168-182 | runs `baseArgs ++ [add, description] ++ Fields(metadata)` |
| Taskwarrior.ModifyHandler | pkg/taskwarrior/taskwarrior.go:184-199 | runs `baseArgs ++ Fields(filter) ++ [modify] ++ Fields(modifications)` |
| Taskwarrior.IdHandler | pkg/taskwarrior/taskwarrior.go:201-213 | runs `baseArgs ++ [uuid, op]`, an empty uuid passed as an empty token |
| Taskwarrior.DoneHandler | pkg/taskwarrior/taskwarrior.go:201-213 | runs `baseArgs ++ [uuid, done]` |
| Taskwarrior.DeleteHandler | pkg/taskwarrior/taskwarrior.go:215-227 | runs `baseArgs ++ [uuid, delete]` |
| Taskwarrior.StartHandler | pkg/taskwarrior/taskwarrior.go:261-273 | runs `baseArgs ++ [uuid, start]` |
| Taskwarrior.StopHandler | pkg/taskwarrior/taskwarrior.go:275-287 | runs `baseArgs ++ [uuid, stop]` |
| Taskwarrior.IdTextHandler | pkg/taskwarrior/taskwarrior.go:229-243 | runs `baseArgs ++ [uuid, op, text]` with the text unsplit |
| Taskwarrior.AnnotateHandler | pkg/taskwarrior/taskwarrior.go:229-243 | runs `baseArgs ++ [uuid, annotate, text]` |
| Taskwarrior.DenoteHandler | pkg/taskwarrior/taskwarrior.go:245-259 | runs `baseArgs ++ [uuid, denote, text]` |
| Taskwarrior.AppendHandler | pkg/taskwarrior/taskwarrior.go:365-379 | runs `baseArgs ++ [uuid, append, text]` |
| Taskwarrior.PrependHandler | pkg/taskwarrior/taskwarrior.go:381-395 | runs `baseArgs ++ [uuid, prepend, text]` |
| Taskwarrior.KeywordHandler | pkg/taskwarrior/taskwarrior.go:289-298 | runs `baseArgs ++ [op]` whatever the input |
| Taskwarrior.UndoHandler | pkg/taskwarrior/taskwarrior.go:289-298 | runs `baseArgs ++ [undo]` |
| Taskwarrior.TagsHandler | pkg/taskwarrior/taskwarrior.go:422-429 | runs `baseArgs ++ [tags]` |
| Taskwarrior.ProjectsHandler | pkg/taskwarrior/taskwarrior.go:431-438 | runs `baseArgs ++ [projects]` |
| Taskwarrior.UdasHandler | pkg/taskwarrior/taskwarrior.go:440-447 | runs `baseArgs ++ [udas]` |
| Taskwarrior.DiagnosticsHandler | pkg/taskwarrior/taskwarrior.go:449-456 | runs `baseArgs ++ [diagnostics]` |
| Taskwarrior.StatsHandler | pkg/taskwarrior/taskwarrior.go:458-465 | runs `baseArgs ++ [stats]` |
| Taskwarrior.CalcHandler | pkg/taskwarrior/taskwarrior.go:300-312 | runs `baseArgs ++ [calc, expression]` with the expression unsplit |
| Taskwarrior.RawHandler | pkg/taskwarrior/taskwarrior.go:314-330 | runs `baseArgs ++ Fields(command)`, built by assigning keyword and modifications |
| Taskwarrior.ConfigHandler | pkg/taskwarrior/taskwarrior.go:332-349 | runs `baseArgs ++ [config] ++ ConfigModifications(name, value)` |
| Taskwarrior.PurgeHandler | pkg/taskwarrior/taskwarrior.go:351-363 | runs `baseArgs ++ Fields(filter) ++ [purge]` |
| Taskwarrior.ImportHandler | pkg/taskwarrior/taskwarrior.go:397-420 | create or write failures reply with the error and run nothing; otherwise `task import <path>` runs and finds the directory as it was plus the data written at that path; the temporary directory ends as it began on every path |
| Taskwarrior.TaskrcReachesChild | pkg/taskwarrior/taskwarrior.go:32-35 | the child sees `TASKRC` as the resolved path whatever it inherited |
| Taskwarrior.ListTokensSplitDefault | pkg/taskwarrior/taskwarrior.go:153-158 | the list tokens are the fields of the defaulted filter; with no filter, exactly `[status:pending]` |
| Taskwarrior.ListBlankFilterSelectsAll | pkg/taskwarrior/taskwarrior.go:153-158 | a whitespace-only filter gives no filter tokens, so only `export` follows the overrides |
| Taskwarrior.AddKeepsDescriptionWhole | pkg/taskwarrior/taskwarrior.go:173-176 | the description is one token after `add`; the metadata tokens are space-free and hold all of its non-space text |
| Taskwarrior.AddVectorDeterminesInput | pkg/taskwarrior/taskwarrior.go:173-176 | equal add vectors mean equal descriptions and equal metadata tokens |
| Taskwarrior.IdentifierIsOneToken | pkg/taskwarrior/taskwarrior.go:229-243 | the identifier and the text are each one token, however many spaces they hold |
| Taskwarrior.RawIsFields | pkg/taskwarrior/taskwarrior.go:317-323 | the raw vector is the fields of the command, empty exactly when it is blank |
| Taskwarrior.RawPassesTokensThrough | pkg/taskwarrior/taskwarrior.go:317-323 | space-free tokens joined by spaces reach `task` unchanged |
| Taskwarrior.ImportPathIsMarked | pkg/taskwarrior/taskwarrior.go:401 | the temporary file's path contains `task_import` |
| Taskwarrior.FailedRunIsReported | pkg/taskwarrior/taskwarrior.go:161-165 | failure gives an error result containing the output and the error; success gives the output verbatim |
| Timewarrior.RunTimew | pkg/timewarrior/timewarrior.go:12-14 | one runner call for `timew` with no environment and exactly `args` |
| Timewarrior.TagArgs | pkg/timewarrior/timewarrior.go:50 | the keyword, then space-free tag tokens holding every non-space character; just the keyword exactly when the tags are blank |
| Timewarrior.RangeArgs | pkg/timewarrior/timewarrior.go:80-83 | the keyword alone for an empty range, else the keyword and the range unsplit |
| Timewarrior.StartHandler | pkg/timewarrior/timewarrior.go:47-56 | runs `[start] ++ Fields(tags)` and replies with the wrapped answer |
| Timewarrior.StopHandler | pkg/timewarrior/timewarrior.go:58-67 | runs `[stop] ++ Fields(tags)` |
| Timewarrior.ContinueHandler | pkg/timewarrior/timewarrior.go:69-75 | runs exactly `[continue]` |
| Timewarrior.SummaryHandler | pkg/timewarrior/timewarrior.go:77-89 | runs `[summary]`, plus the range when it is not empty |
| Timewarrior.ExportHandler | pkg/timewarrior/timewarrior.go:91-103 | runs `[export]`, plus the range when it is not empty |
| Timewarrior.RawHandler | pkg/timewarrior/timewarrior.go:105-113 | runs exactly `Fields(command)` with no keyword added |
| Timewarrior.RawBlankRunsBareTimew | pkg/timewarrior/timewarrior.go:108 | the raw vector is empty exactly when the command is blank |
| Timewarrior.FailedRunIsReported | pkg/timewarrior/timewarrior.go:51-55 | failure gives an error result containing the output and the error; success gives the output verbatim |
| TaskMcp.TaskOutcome | taskmcp.go:25-30 | success gives the trimmed output; failure gives "" and `task error: <err>\nOutput: <trimmed output>`, containing both |
| TaskMcp.RunTask | taskmcp.go:15-31 | one spawn of `task` with the overrides, then `args`, inherited environment, no stdin |
| TaskMcp.ListTokensSplitDefault | taskmcp.go:113-117 | the list tokens are the fields of the caller's filter when given, else the fields of `status:pending`, which are exactly `[status:pending]` |
| TaskMcp.ListTokens | taskmcp.go:113-117 | the filter tokens of `task_list`; `TaskMcp.ListTokensSplitDefault` states them |
| TaskMcp.EntryArgs | taskmcp.go:127 | the keyword, the description as one token, then the metadata fields |
| TaskMcp.ModifyArgs | taskmcp.go:138 | the identifier first and unsplit, then `modify`, then the modification fields |
| TaskMcp.StartStopArgs | taskmcp.go:149-152 | present exactly for `start` or `stop`, and then `[uuid, action]` |
| TaskMcp.ListHandler | taskmcp.go:112-122 | spawns `task` with `baseArgs ++ ListTokens ++ [export]` and replies with the translated outcome |
| TaskMcp.AddHandler | taskmcp.go:124-133 | spawns `task` with `baseArgs ++ [add, description] ++ Fields(metadata)` |
| TaskMcp.ModifyHandler | taskmcp.go:135-144 | spawns `task` with `baseArgs ++ [uuid, modify] ++ Fields(modifications)` |
| TaskMcp.StartStopHandler | taskmcp.go:146-157 | an unknown action gives the fixed error and spawns nothing; otherwise `task <uuid> <action>` runs |
| TaskMcp.AnnotateHandler | taskmcp.go:159-167 | spawns `task` with `baseArgs ++ [uuid, annotate, text]` |
| TaskMcp.LogHandler | taskmcp.go:169-178 | spawns `task` with `baseArgs ++ [log, description] ++ Fields(metadata)` |
| TaskMcp.CalcHandler | taskmcp.go:180-187 | spawns `task` with `baseArgs ++ [calc, expression]` |
| TaskMcp.ImportHandler | taskmcp.go:189-198 | spawns `task rc.confirmation=off import` with the data on stdin; failure reports the raw output, success a fixed message |
| TaskMcp.TimewRange | taskmcp.go:201-204 | the caller's range when given, else `:week` |
| TaskMcp.TimewHandler | taskmcp.go:200-210 | spawns `timew export <range>`; any failure gives the fixed `Timewarrior failed`, success the raw standard output |
| TaskMcp.ModifyVectorDeterminesInput | taskmcp.go:136-138 | equal modify vectors mean equal identifiers and equal modification tokens |
| TaskMcp.FailedRunIsReported | taskmcp.go:27-30 | failure gives an error result containing the trimmed output and the error; success the trimmed output |
| TaskMcp.ReportedOutputIsTrimmed | taskmcp.go:25 | a successful reply is the printed output minus white-space margins only |

## Left out

- Process spawning itself (`exec.Command`, `os.Environ`, output capture) is replaced by the `GoOs.Os` object, which returns a programmed result. The program's behaviour is not modelled.
- `os.Getenv` and `os.UserHomeDir` are inputs (`Common.Host`). An unset variable reads as "". The error of `os.UserHomeDir` is ignored, as the code does.
- `filepath.Join` is modelled as a binary `Common.Join`: skip empty elements, join with `/`; longer joins nest it. Its lexical clean-up (`..`, repeated separators) is not modelled.
- `strings.TrimSpace` and `strings.Fields` work on code points. UTF-8 decoding of invalid byte sequences is not modelled.
- The global `common.Runner` that tests reassign is replaced by an injected `CommandRunner`. The production `DefaultRunner` and the test double are two separate members (`Common.DefaultRun`, `Common.CommandRunner.Run`), not one interface.
- GoOs.TempDir.CreateTemp: `os.CreateTemp` retries with fresh random names when a name is taken. The model fails instead, and only states that the result is an error.
- Taskwarrior.ImportHandler: `tmpFile.Close()` and the error of the deferred `os.Remove` are ignored, as the code does. The content of the error for a taken name is not stated.
- The random part of the temporary file name is an input (`TempDir.random`).
- The runner and the import handler share one temporary directory (`CommandRunner.fs`, required equal to the handler's `tmp`), as the server and the program it spawns share one file system. Other files the program reads are not modelled.
- `RegisterHandlers`, `AddTool`, `ServeStdio`, tool descriptions and cmd/warmcp/main.go are server wiring with no behaviour to verify.
- pkg/common/mcp_features.go is not part of this model. It holds static prompt text, a resource that reads a file from disk, and resources that pass constant vectors to `RunCommand`.
- `plannerPromptHandler` in taskmcp.go only formats prompt text.
- The pkg/timewarrior test double (pkg/timewarrior/timewarrior_test.go:19) does not match the runner interface. The model uses the shared `CommandRunner` double.
- Concurrency: handlers are modelled one call at a time.
