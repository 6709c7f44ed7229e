/** Small shared vocabulary: optional values, JavaScript truthiness of the
    optional strings the handlers test, replies of external services, and
    string prefixes. */
module Common {

  /** An optional value; `None` stands for JavaScript's `null`/`undefined`. */
  datatype Option<+T> = None | Some(value: T) {

    /** The carried value, or `default` when there is none. */
    function GetOr(default: T): T {
      match this
      case Some(v) => v
      case None => default
    }
  }

  /** A value or the error that stopped its computation (a thrown error in
      the TypeScript handlers). */
  datatype Result<+T, +E> = Success(value: T) | Failure(error: E)

  /** JavaScript truthiness of an optional string: `null`, `undefined` and
      the empty string are falsy, every other string is truthy. */
  predicate Truthy(s: Option<string>) {
    s.Some? && s.value != ""
  }

  /** The outcome of a call into an external service (the payment
      processor, or a query module that is not part of this model): either
      it returns a value or it throws. */
  datatype Reply<+T> = Returned(value: T) | Threw

  /** `s.startsWith(p)`. */
  predicate StartsWith(s: string, p: string) {
    |p| <= |s| && s[..|p|] == p
  }
}
