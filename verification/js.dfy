/**
 * JavaScript values and idioms the composables rely on: optional values
 * (`undefined`/`null`), promise outcomes, thrown values, truthiness of strings,
 * the two message-fallback idioms, and JSON text as written by `JSON.stringify`.
 */
module Js {

  /** `undefined` / `null` versus a present value. */
  datatype Option<+T> = None | Some(value: T)

  /** A computation that either produces a value or throws. */
  datatype Result<+T, +E> = Success(value: T) | Failure(error: E)

  /** How a `Promise<void>` settles. */
  datatype Outcome = Resolved | Rejected(reason: Exn)

  /**
   * A thrown value: an `Error` instance (including `TypeError` and
   * `SyntaxError`) with its message, or any other value, such as the string a
   * native plugin rejects with, which has no `message` property.
   */
  datatype Exn = Error(message: string) | NonError(value: string)

  /** Message of the `SyntaxError` that `JSON.parse` throws; the engine's wording is abstracted. */
  const SyntaxErrorMessage := "Unexpected token in JSON"

  /** `e instanceof Error ? e.message : fallback` */
  function InstanceMessage(e: Exn, fallback: string): (m: string)
    ensures e.NonError? ==> m == fallback
    ensures e.Error? ==> m == e.message
  {
    match e
    case Error(msg) => msg
    case NonError(_) => fallback
  }

  /** `e.message || fallback`: an empty or missing message falls back. */
  function MessageOr(e: Exn, fallback: string): (m: string)
    ensures e.Error? && e.message != "" ==> m == e.message
    ensures (e.NonError? || e.message == "") ==> m == fallback
    ensures fallback != "" ==> m != ""
  {
    if e.Error? && e.message != "" then e.message else fallback
  }

  /** `a || b` on optional strings: `a` when it is a non-empty string, else `b`. */
  function OrElse(a: Option<string>, b: Option<string>): (r: Option<string>)
    ensures a.Some? && a.value != "" ==> r == a
    ensures !(a.Some? && a.value != "") ==> r == b
  {
    if a.Some? && a.value != "" then a else b
  }

  /** Truthiness of an optional string: present and non-empty. */
  predicate IsTruthy(s: Option<string>) {
    s.Some? && s.value != ""
  }

  /**
   * A string held in storage, seen through `JSON.parse`: either the text that
   * `JSON.stringify(value)` produced, or text that `JSON.parse` rejects
   * (the empty string among them).
   */
  datatype Text<T> = Serialized(value: T) | Malformed(chars: string)

  /** `JSON.stringify(v)` */
  function Stringify<T>(v: T): Text<T> {
    Serialized(v)
  }

  /** `JSON.parse(t)`: throws a `SyntaxError` on text it rejects. */
  function Parse<T>(t: Text<T>): (r: Result<T, Exn>)
    ensures t.Serialized? ==> r == Success(t.value)
    ensures t.Malformed? ==> r == Failure(Error(SyntaxErrorMessage))
  {
    match t
    case Serialized(v) => Success(v)
    case Malformed(_) => Failure(Error(SyntaxErrorMessage))
  }

  /** Truthiness of a stored string: only the empty string is falsy. */
  predicate TextIsTruthy<T>(t: Text<T>) {
    !(t.Malformed? && t.chars == "")
  }

  /** `s.endsWith(suffix)` */
  predicate EndsWith(s: string, suffix: string) {
    |suffix| <= |s| && s[|s| - |suffix|..] == suffix
  }

  /** `sub` occurs in `s` starting at index `i`. */
  predicate OccursAt(s: string, sub: string, i: int) {
    0 <= i <= |s| - |sub| && s[i..i + |sub|] == sub
  }

  /** `s.includes(sub)` */
  predicate Includes(s: string, sub: string) {
    exists i :: 0 <= i <= |s| && OccursAt(s, sub, i)
  }

  lemma ParseAfterStringify<T>(v: T)
    ensures Parse(Stringify(v)) == Success(v)
    ensures TextIsTruthy(Stringify(v))
  {
  }
}
