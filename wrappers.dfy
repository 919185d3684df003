/** Option and Result, the exception value the modelled code raises, and Python's
    `value or default` idiom, which the services use for every optional argument. */
module Wrappers {

  datatype Option<+T> = None | Some(value: T)

  /** A raised Python exception: `type(e).__name__` and `str(e)`. */
  datatype Exception = Exception(name: string, message: string)

  function ValueError(message: string): Exception
  {
    Exception("ValueError", message)
  }

  /** Either a value or the exception that was raised instead. */
  datatype Result<+T> = Ok(value: T) | Err(error: Exception)

  /** The decimal digits of `n`, most significant first. */
  function DecimalDigits(n: nat): string
    decreases n
  {
    if n < 10 then [('0' as int + n) as char] else DecimalDigits(n / 10) + [('0' as int + n % 10) as char]
  }

  /** `str(i)` for an `int`. */
  function IntToString(i: int): string
  {
    if i < 0 then "-" + DecimalDigits(-i) else DecimalDigits(i)
  }

  /** `x or default` for `x: int | None`: both None and 0 are falsy. */
  function IntOr(x: Option<int>, default: int): (r: int)
    ensures r == default || (x.Some? && r == x.value != 0)
    ensures x.Some? && x.value != 0 ==> r == x.value
  {
    if x.Some? && x.value != 0 then x.value else default
  }

  /** `x or default` for `x: str | None`: both None and "" are falsy. */
  function StringOr(x: Option<string>, default: string): (r: string)
    ensures r == default || (x.Some? && r == x.value != "")
    ensures x.Some? && x.value != "" ==> r == x.value
  {
    if x.Some? && x.value != "" then x.value else default
  }

  /** `x or default` for `x: dict | None`: both None and {} are falsy. */
  function DictOr<K, V>(x: Option<map<K, V>>, default: map<K, V>): (r: map<K, V>)
    ensures r == default || (x.Some? && r == x.value && |r| > 0)
    ensures x.Some? && |x.value| > 0 ==> r == x.value
  {
    if x.Some? && |x.value| > 0 then x.value else default
  }

  /** One entry of a pydantic `ValidationError`: the field, the error type and its message. */
  datatype FieldError = FieldError(loc: string, kind: string, message: string)

  /** The outcome of building a pydantic model from a request body. */
  datatype Validated<+T> = Valid(value: T) | Invalid(errors: seq<FieldError>)

  /** The field named `loc` is among the reported errors. */
  predicate Reports(errors: seq<FieldError>, loc: string)
  {
    exists i :: 0 <= i < |errors| && errors[i].loc == loc
  }

  lemma ReportsConcat(a: seq<FieldError>, b: seq<FieldError>, loc: string)
    ensures Reports(a + b, loc) <==> Reports(a, loc) || Reports(b, loc)
  {
    if Reports(a, loc) {
      var i :| 0 <= i < |a| && a[i].loc == loc;
      assert (a + b)[i] == a[i];
    }
    if Reports(b, loc) {
      var i :| 0 <= i < |b| && b[i].loc == loc;
      assert (a + b)[|a| + i] == b[i];
    }
  }
}
