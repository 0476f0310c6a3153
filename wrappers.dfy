/** Optional values and factory results shared by the order-service model. */
module Wrappers {

  /** An optional value: a field that a payload or a stored document may lack. */
  datatype Option<+T> = None | Some(value: T)

  /** The outcome of a validating factory: the constructed value, or the
      message of the domain error the factory throws. */
  datatype Result<+T> = Ok(value: T) | Err(error: string)
}
