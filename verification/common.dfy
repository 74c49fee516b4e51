/** Failure-carrying values shared by every service module. */
module Common {

  /** Python's `Optional[T]`: `None` or a present value. */
  datatype Option<T> = None | Some(value: T)

  /** The ways a service call can raise instead of returning. */
  datatype Error =
    /** A required field is absent from a search-engine hit (a `KeyError` or validation error). */
    | MissingField(field: string)
    /** The cached payload under `key` does not have the shape the hit path parses. */
    | UnreadablePayload(key: string)

  /** Either the value a call returns or the error it raises. */
  datatype Result<T> = Ok(value: T) | Err(error: Error)
}
