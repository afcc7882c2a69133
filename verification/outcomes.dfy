/**
 Shared result types: an optional value, a success-or-revert result, and the
 value a JavaScript `catch` clause receives.
 */
module Outcomes {

  /** `null` / absent in the frontend code. */
  datatype Option<+T> = None | Some(value: T)

  /** A call that either returns a value or fails with an error value. */
  datatype Result<+T, +E> = Ok(value: T) | Err(error: E)

  /** What a `catch (err)` block sees: an `Error` object carrying a message,
      or some other thrown value that is not an `Error`. */
  datatype Thrown = ErrorValue(message: string) | NonErrorValue

  /** `err.message || fallback`: the message when it is a non-empty string,
      the fallback when the message is empty or the value has no message. */
  function MessageOr(t: Thrown, fallback: string): (m: string)
    ensures t.ErrorValue? && t.message != "" ==> m == t.message
    ensures t.NonErrorValue? || t.message == "" ==> m == fallback
  {
    match t
    case ErrorValue(msg) => if msg != "" then msg else fallback
    case NonErrorValue => fallback
  }

  /** `err instanceof Error ? err.message : fallback`: unlike `MessageOr`, an
      empty message is kept as it is. */
  function ErrorMessageElse(t: Thrown, fallback: string): (m: string)
    ensures t.ErrorValue? ==> m == t.message
    ensures t.NonErrorValue? ==> m == fallback
  {
    match t
    case ErrorValue(msg) => msg
    case NonErrorValue => fallback
  }
}
