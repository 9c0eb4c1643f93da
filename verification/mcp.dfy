/**
 * The two pieces of the tool-calling library the handlers touch: the untyped
 * argument map of a tool call, and the result a handler returns.
 */
module Mcp {
  import opened Wrappers

  /** A JSON value in a tool call's arguments; only strings are read. */
  datatype Value = Str(s: string) | NonString

  /**
   * A call's argument map (`map[string]any`). A payload that is not a map
   * leaves Go's handlers with a nil map, which reads like the empty map.
   */
  type Arguments = map<string, Value>

  /**
   * `v, _ := args[key].(string)`: the string stored under `key`, and `""`
   * when the key is missing or holds something other than a string.
   */
  function StringArg(a: Arguments, key: string): (v: string)
    ensures key in a && a[key].Str? ==> v == a[key].s
    ensures key !in a || !a[key].Str? ==> v == ""
  {
    if key in a && a[key].Str? then a[key].s else ""
  }

  /** `v, ok := args[key].(string)`: `None` when `ok` is false. */
  function LookupString(a: Arguments, key: string): (r: Option<string>)
    ensures r.Some? <==> key in a && a[key].Str?
    ensures r.Some? ==> r.value == StringArg(a, key)
  {
    if key in a && a[key].Str? then Some(a[key].s) else None
  }

  /** A tool result: its text content and whether it reports an error. */
  datatype ToolResult = ToolResult(text: string, isError: bool)

  function NewToolResultText(text: string): ToolResult {
    ToolResult(text, false)
  }

  function NewToolResultError(text: string): ToolResult {
    ToolResult(text, true)
  }

  /**
   * The tail every handler shares: a non-nil error becomes an error result
   * carrying `err.Error()`, otherwise the output is returned as text. No Go
   * error is ever returned to the server.
   */
  function Reply(o: Outcome): (r: ToolResult)
    ensures r.isError <==> o.err.Some?
    ensures o.err.None? ==> r.text == o.output
    ensures o.err.Some? ==> r.text == o.err.value
  {
    if o.err.Some? then NewToolResultError(o.err.value) else NewToolResultText(o.output)
  }
}
