/** The error record every operation returns on failure, and the
    value-or-error result shape shared by the whole client. */
module MalErrors {

  datatype Option<T> = None | Some(value: T)
  {
    /** The value, or `default` when absent (the `??` operator). */
    function GetOr(default: T): T {
      match this
      case Some(v) => v
      case None => default
    }
  }

  /** `MalError`: a reason and an HTTP-like status, fixed at construction. */
  datatype MalError = MalError(message: string, status: int)

  /** The `[value, undefined] | [undefined, MalError]` pair: exactly one side
      is present, which a sum type guarantees by construction. */
  datatype Result<T> = Ok(value: T) | Err(error: MalError)
}
