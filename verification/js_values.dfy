/**
  The JavaScript values the authentication code branches on: fields that may
  hold `null`, calls that may throw, and the truthiness tests (`if (!token)`,
  `!!accessToken`) that decide every branch of the session lifecycle.
 */
module JsValues {

  /** A nullable field: `None` is JavaScript's `null`. */
  datatype Option<T> = None | Some(value: T)

  /** What a call produces: the value it returns, or the error it throws. */
  datatype Result<T, E> = Ok(value: T) | Err(error: E)

  /** `!!t` for a `string | null`: both `null` and the empty string are falsy. */
  predicate Truthy(t: Option<string>)
  {
    t.Some? && t.value != ""
  }
}
