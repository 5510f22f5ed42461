/** Failure-compatible result types and the single error family of Knotify. */
module Wrappers {

  datatype Option<+T> = None | Some(value: T)

  /** A computation that either produced a value or failed with an error. */
  datatype Result<+T, +E> = Ok(value: T) | Err(error: E)

  /** A computation that produces no value but may fail. */
  datatype Outcome<+E> = Pass | Fail(error: E)

  /** Why `cls(**params)` raised: the parameters the constructor needs but did not
      receive, and the keyword arguments it does not accept. */
  datatype ConstructionError = BadParameters(missing: set<string>, unexpected: set<string>)

  /** Every failure of the core surfaces as a `KnotifyException`; its kinds are
      told apart here by the constructor. */
  datatype KnotifyError =
    | InvalidScheme                               // "Invalid url scheme"
    | InvalidClassName(netloc: string)            // "Invalid class name <netloc>"
    | ConstructionFailed(cause: ConstructionError) // the constructor's exception, re-raised
    | InvalidPusherType(typeName: string)         // "Invalid pusher type <class>"
}
