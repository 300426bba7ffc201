/** Small value wrappers shared by the whole model: optional values, results of
    backend calls, and the JavaScript defaulting operators the source relies on. */
module Wrappers {

  datatype Option<+T> = None | Some(value: T)

  /** The outcome of a call that either succeeds with a value or raises an error. */
  datatype Result<+T> = Ok(value: T) | Err(message: string)

  /** The outcome of a call that returns nothing but may raise an error. */
  datatype Outcome = Pass | Fail(message: string)

  /** What a backend read hands back: an error object, a null `data` without an
      error, or the rows themselves. */
  datatype Fetch<+T> = FetchError | NoData | Data(rows: T)

  /** A TypeScript optional field that may also be `null`: `undefined` (Absent),
      `null` (Null) or a value (Present). */
  datatype Field<+T> = Absent | Null | Present(value: T)

  /** JavaScript arithmetic treats a null column as 0; `x || 0` does the same. */
  function OrZero(o: Option<int>): (r: int)
    ensures o.None? ==> r == 0
    ensures o.Some? ==> r == o.value
  {
    match o
    case None => 0
    case Some(v) => v
  }

  function OrZeroReal(o: Option<real>): (r: real)
    ensures o.None? ==> r == 0.0
    ensures o.Some? ==> r == o.value
  {
    match o
    case None => 0.0
    case Some(v) => v
  }

  /** A string is truthy in JavaScript exactly when it is present and non-empty. */
  predicate Truthy(o: Option<string>)
  {
    o.Some? && o.value != ""
  }

  /** `s || fallback` for an optional string: the fallback replaces both a
      missing value and the empty string. */
  function OrElse(o: Option<string>, fallback: string): (r: string)
    ensures Truthy(o) ==> r == o.value
    ensures !Truthy(o) ==> r == fallback
  {
    if o.Some? && o.value != "" then o.value else fallback
  }

  /** `s || fallback` for a string that is always present. */
  function StrOr(s: string, fallback: string): (r: string)
    ensures s != "" ==> r == s
    ensures s == "" ==> r == fallback
  {
    if s != "" then s else fallback
  }

  /** `b ?? fallback`: only a missing value is replaced; `false` is kept. */
  function BoolOr(o: Option<bool>, fallback: bool): (r: bool)
    ensures o.Some? ==> r == o.value
    ensures o.None? ==> r == fallback
  {
    match o
    case None => fallback
    case Some(b) => b
  }
}
