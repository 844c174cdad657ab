/**
 * The few JavaScript value semantics the components rely on: optional
 * values (`undefined`/`null` versus a value), the truthiness of a string,
 * the `a || b` operator on optional strings, the outcome of an awaited call,
 * and the message a `catch` block extracts from what was thrown.
 */
module Js {

  /** An optional value: `None` stands for `undefined` or `null`. */
  datatype Option<T> = None | Some(value: T)

  /** A string-typed value is truthy when it is present and not `""`. */
  predicate Truthy(v: Option<string>)
    ensures v.None? || v == Some("") ==> !Truthy(v)
    ensures Truthy(v) ==> |v.value| > 0
  {
    v.Some? && v.value != ""
  }

  /** `a || b` on optional strings: the first operand if truthy, else the second. */
  function Or(a: Option<string>, b: Option<string>): (r: Option<string>)
    ensures Truthy(a) ==> r == a
    ensures !Truthy(a) ==> r == b
    ensures Truthy(r) <==> Truthy(a) || Truthy(b)
  {
    if Truthy(a) then a else b
  }

  /** What a rejected promise carried: an `Error` instance, or any other value. */
  datatype Thrown = ErrorInstance(message: string) | OtherValue

  /** The outcome of an awaited call into the backend SDK. */
  datatype Outcome<T> = Returned(value: T) | Threw(thrown: Thrown)

  /** `err instanceof Error ? err.message : fallback`. */
  function CaughtMessage(err: Thrown, fallback: string): (m: string)
    ensures err.ErrorInstance? ==> m == err.message
    ensures err.OtherValue? ==> m == fallback
  {
    match err
    case ErrorInstance(message) => message
    case OtherValue => fallback
  }

  /** The number of UTF-16 code units of a string (JavaScript's `length`). */
  function Utf16Length(s: string): (n: nat)
    ensures |s| <= n <= 2 * |s|
    ensures (forall i :: 0 <= i < |s| ==> s[i] as int < 0x1_0000) ==> n == |s|
  {
    if s == [] then 0
    else (if s[0] as int < 0x1_0000 then 1 else 2) + Utf16Length(s[1..])
  }
}
