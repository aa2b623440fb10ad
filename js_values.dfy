/**
 * Small value types shared by the model: an optional value (a JavaScript
 * property that may be `undefined` or `null`), a result that is either a value
 * or an error message (a resolved or a rejected promise), and the JavaScript
 * truthiness of an optional string, which the source relies on in every
 * `a || b` fallback chain.
 */
module JsValues {

  datatype Option<+T> = None | Some(value: T)

  /** A value, or the message of the `Error` that was thrown instead. */
  datatype Result<+T> = Ok(value: T) | Err(error: string)

  /** An optional string is truthy in JavaScript iff it is present and not "". */
  predicate Truthy(s: Option<string>) {
    s.Some? && s.value != ""
  }

  /** The JavaScript expression `s || fallback` for an optional string `s`. */
  function Or(s: Option<string>, fallback: string): (r: string)
    ensures Truthy(s) ==> r == s.value
    ensures !Truthy(s) ==> r == fallback
    ensures fallback != "" ==> r != ""
  {
    if Truthy(s) then s.value else fallback
  }
}
