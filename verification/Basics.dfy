/** Shared value types: optional values and the outcome of an operation that may raise. */
module Basics {

  datatype Option<+T> = None | Some(value: T)

  /** The errors the modelled operations raise.  A raised error rolls the transaction back. */
  datatype Error =
    | UnknownJobType
    | BadSchemaVersion
    | BadMaxAttempts
    | SecretRejected
    | NotFound
    | NotEligible
    | RetryLimitExceeded
    | NotReady
    | ImmutableContract
    | ConstitutionalViolation
    | AvailableWithoutValue
    | NonExhaustive

  datatype Result<+T> = Ok(value: T) | Err(error: Error)

  function ErrorOf<T>(r: Result<T>): Option<Error> { if r.Err? then Some(r.error) else None }
}
