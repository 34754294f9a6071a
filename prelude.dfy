/** Small building blocks shared by every module of the dashboard model. */
module Prelude {

  /** A JavaScript value that may be `null` or `undefined` (None) or present (Some). */
  datatype Option<+T> = None | Some(value: T)

  /**
   * What a JavaScript `throw` carries, as far as the dashboard looks at it:
   * an `Error` instance (whose `message` is read) or any other thrown value.
   */
  datatype Fault = ErrorObject(message: string) | OtherValue(text: string)

  /** `err instanceof Error ? err.message : fallback`, the idiom every catch block uses. */
  function MessageOr(f: Fault, fallback: string): string
  {
    match f
    case ErrorObject(m) => m
    case OtherValue(_) => fallback
  }

  /** JavaScript truthiness of an optional string: `undefined`, `null` and `""` are falsy. */
  predicate Truthy(s: Option<string>)
  {
    s.Some? && s.value != ""
  }

  /** `s || undefined` for a string-valued filter held in React state. */
  function OrUndefined(s: string): (r: Option<string>)
    ensures Truthy(r) <==> s != ""
    ensures Truthy(r) ==> r.value == s
    ensures !Truthy(r) ==> r.None?
  {
    if s == "" then None else Some(s)
  }
}
