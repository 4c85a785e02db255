/**
  What the submit handlers of both front ends can catch, and how they turn it into
  the one line of text shown under the form: `error.msg || error.message ||
  "ระบบขัดข้อง"`.
*/
module Errors {
  import opened Wrappers
  import opened FormRules

  /** The text shown when a caught value carries no message of its own. */
  const Fallback := "ระบบขัดข้อง"

  /** A value thrown somewhere in a submission:
      - a plain object `{ msg, field }` (validation and file-limit failures; the
        field, when there is one, is the input to focus),
      - an `Error` with its `message` (missing endpoint, bad response, rejected
        request),
      - the event a failed FileReader rejects with, which has neither. */
  datatype Thrown =
    | Problem(msg: string, field: Option<Field>)
    | JsError(message: string)
    | ReadFailureEvent

  /** `error.msg || error.message || "ระบบขัดข้อง"`. */
  function Display(t: Thrown): (text: string)
    ensures text != ""
    ensures text == Fallback || (t.Problem? && text == t.msg) || (t.JsError? && text == t.message)
    ensures t.Problem? && t.msg != "" ==> text == t.msg
    ensures t.JsError? && t.message != "" ==> text == t.message
  {
    match t
    case Problem(msg, _) => if msg != "" then msg else Fallback
    case JsError(message) => if message != "" then message else Fallback
    case ReadFailureEvent => Fallback
  }

  /** The input a caught value asks to focus: only `{ msg, field }` objects name one. */
  function FocusOf(t: Thrown): Option<Field> {
    if t.Problem? then t.field else None
  }
}
