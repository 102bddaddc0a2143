/**
 * Shared wrappers: an optional value, and the outcome of a step that may
 * raise an exception the model does not look inside.
 */
module Outcomes {

  datatype Option<T> = None | Some(value: T)
  {
    function GetOr(default: T): (r: T)
      ensures Some? ==> r == value
      ensures None? ==> r == default
    {
      match this
      case None => default
      case Some(v) => v
    }
  }

  /** The outcome of a call that either returns a value or raises. */
  datatype Step<T> = Ok(value: T) | Raised

  /**
   * How an external tool's process ended: its standard output, a
   * `TimeoutExpired`, or a `FileNotFoundError` for a missing executable.
   */
  datatype ToolRun = Ran(stdout: string) | TimedOut | NotFound

  /** Python's `x or default` for an optional string: None and "" are falsy. */
  function OrDefault(s: Option<string>, default: string): (r: string)
    ensures s.Some? && s.value != "" ==> r == s.value
    ensures s.None? || s.value == "" ==> r == default
  {
    if s.Some? && s.value != "" then s.value else default
  }
}
