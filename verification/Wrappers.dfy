/** Result types shared by every component. */
module Wrappers {

  datatype Option<+T> = None | Some(value: T)

  /** The service layer's error vocabulary: one constructor per `DomainError` subclass. */
  datatype DomainError =
    | ValidationFailed
    | NotFound
    | Forbidden
    | Conflict
    | StorageUnavailable
    | InvalidCredentials
    | InvalidAccessToken
    | InvalidRefreshToken
    | RateLimitExceeded
    | PasswordChangeRequired

  /** How a piece of request code ends: with a value, by raising a `DomainError`,
      or by any other exception. */
  datatype Outcome<+T> = Ok(value: T) | Raised(error: DomainError) | Crashed {
    predicate IsFailure() {
      !Ok?
    }

    function PropagateFailure<U>(): Outcome<U>
      requires IsFailure()
    {
      match this
      case Raised(e) => Raised(e)
      case Crashed => Crashed
    }

    function Extract(): T
      requires Ok?
    {
      value
    }
  }
}
