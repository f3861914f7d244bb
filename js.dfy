/** Values as the JavaScript code sees them: optional values (`null` and
    `undefined` are both `None`), the outcomes of awaited calls, and the
    truthiness tests that `||` and `if (!x)` perform on strings. */
module Js {

  datatype Option<+T> = None | Some(value: T)

  /** An awaited call that either yields a value or throws. */
  datatype Try<+T> = Ok(value: T) | Threw(message: string)

  /** An awaited call that yields a value, yields `null`, or throws. */
  datatype Outcome<+T> = Value(value: T) | Null | Throw(message: string)

  /** A string-valued field is truthy when it is present and not empty. */
  predicate Truthy(s: Option<string>) {
    s.Some? && s.value != ""
  }

  /** `s || fallback` for an optional string and a string fallback. */
  function Or(s: Option<string>, fallback: string): (r: string)
    ensures Truthy(s) ==> r == s.value
    ensures !Truthy(s) ==> r == fallback
  {
    if Truthy(s) then s.value else fallback
  }

  /** `s || t` where both sides may be absent: the result is `t` whenever `s` is falsy. */
  function OrElse(s: Option<string>, t: Option<string>): (r: Option<string>)
    ensures Truthy(s) ==> r == s
    ensures !Truthy(s) ==> r == t
  {
    if Truthy(s) then s else t
  }
}
