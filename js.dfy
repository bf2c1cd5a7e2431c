/** The few JavaScript runtime notions the route handlers depend on:
    thrown values, truthiness of optional fields, and HTTP status codes. */
module Js {
  import opened Wrappers

  /** A value caught by a handler's `catch`: an `Error` carrying a message,
      or any other thrown value. */
  datatype Thrown = ErrorObject(message: string) | OtherValue

  /** `error instanceof Error ? error.message : 'Unknown error'` */
  function Describe(t: Thrown): (s: string)
    ensures t.ErrorObject? ==> s == t.message
    ensures t.OtherValue? ==> s == "Unknown error"
  {
    match t
    case ErrorObject(m) => m
    case OtherValue => "Unknown error"
  }

  /** An optional number is truthy when present and non-zero (NaN is not modelled). */
  predicate TruthyNumber(n: Option<int>) {
    n.Some? && n.value != 0
  }

  /** An optional string is truthy when present and non-empty. */
  predicate TruthyString(s: Option<string>) {
    s.Some? && s.value != ""
  }

  /** `n || default` on an optional number. */
  function OrNumber(n: Option<int>, default: int): (r: int)
    ensures TruthyNumber(n) ==> r == n.value
    ensures !TruthyNumber(n) ==> r == default
  {
    if TruthyNumber(n) then n.value else default
  }

  /** A status code in [200, 300), which the raw HTTPS helpers resolve on. */
  predicate IsSuccessStatus(code: int) {
    200 <= code < 300
  }

  const Ok := 200
  const MultiStatus := 207
  const BadRequest := 400
  const NotFound := 404
  const InternalServerError := 500
  const ServiceUnavailable := 503
}
