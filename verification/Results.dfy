/** Failure-compatible values: the Go sources return `(T, error)`, the model returns `Result<T>`. */
module Results {
  datatype Option<+T> = None | Some(value: T)

  /** The error codes of internal/platform/apperr that the modelled code tells apart. */
  datatype Code =
    | InvalidRequest
    | InvalidConfiguration
    | Unauthenticated
    | Forbidden
    | NotFound
    | Conflict
    | CredentialNotAuthorized
    | CapabilityNotOffered
    | ApprovalTimeout
    | VaultLocked
    | LockedOut
    | Internal

  datatype Result<+T> = Ok(value: T) | Err(code: Code)
  {
    predicate IsFailure() { Err? }

    function PropagateFailure<U>(): (r: Result<U>)
      requires Err?
    {
      Err(code)
    }

    function Extract(): T
      requires Ok?
    {
      value
    }
  }
}
