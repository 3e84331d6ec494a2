/** Shared vocabulary of the route handlers: optional JSON fields, JavaScript
    truthiness of request fields, and the status + payload reply that every
    handler returns instead of an HTTP response. */
module Common {

  datatype Option<+T> = None | Some(value: T) {
    /** The value, or `default` when absent. */
    function GetOr(default: T): T {
      match this
      case Some(v) => v
      case None => default
    }
  }

  /** A JSON string field passes `!field` when it is present and not "". */
  predicate Given(s: Option<string>) {
    s.Some? && s.value != ""
  }

  /** A JSON number field passes `!field` when it is present and not 0. */
  predicate GivenNum(n: Option<int>) {
    n.Some? && n.value != 0
  }

  /** A string field, or `fallback` when it is absent or empty (a falsy
      string is replaced). */
  function OrElse(s: Option<string>, fallback: string): (r: string)
    ensures Given(s) ==> r == s.value
    ensures !Given(s) ==> r == fallback
  {
    if Given(s) then s.value else fallback
  }

  /** The body of an error reply: either a fixed message of the handler, or
      the text of a caught exception, which the model does not know. */
  datatype ErrorText = Text(s: string) | ExceptionMessage

  /** An HTTP reply: a status with a JSON payload, or a status with `{ error }`. */
  datatype Reply<+T> = Ok(status: int, value: T) | Fail(status: int, error: ErrorText)

  /** What a handler returns: the store after the request and the reply. */
  datatype Outcome<S, T> = Outcome(store: S, reply: Reply<T>)

  datatype Method = GET | POST | PUT | DELETE

  /** Next.js answers a method the route file does not export with 405. */
  const METHOD_NOT_ALLOWED := 405
}
