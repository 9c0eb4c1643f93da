/** Go's optional values and `(string, error)` results. */
module Wrappers {

  /** `None` stands for Go's nil; `Some(v)` for a present value. */
  datatype Option<+T> = None | Some(value: T)

  /**
   * What a Go call returning `(string, error)` hands back: the text, and
   * `None` for a nil error or `Some(err.Error())`.
   */
  datatype Outcome = Outcome(output: string, err: Option<string>)
}
