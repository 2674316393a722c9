/** Optional values and the exceptions the core throws, as data. */
module Outcomes {

  datatype Option<+T> = None | Some(value: T)

  /** A thrown exception.
      - Engine: an `EngineError` or `throwError(message, { reason })`, tagged
        with its reason (`INPUT_VALIDATION`, `CONF_VALIDATION`, ...);
      - Plain: `new Error(message)`, and the `TypeError`s of the language;
      - Jsl: the error `throwJslError({ type, message })` builds. */
  datatype Error =
    | Engine(reason: string, message: string)
    | Plain(message: string)
    | Jsl(jslType: string, message: string)

  /** A value, or the exception that was thrown instead. */
  datatype Result<+T> = Ok(value: T) | Err(error: Error)

  /** The outcome of a check that returns nothing. */
  datatype Outcome = Pass | Fail(error: Error)

  predicate HasReason<T>(r: Result<T>, reason: string) {
    r.Err? && r.error.Engine? && r.error.reason == reason
  }

  predicate FailsWith(o: Outcome, reason: string) {
    o.Fail? && o.error.Engine? && o.error.reason == reason
  }
}
