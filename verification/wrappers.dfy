/** Failure-carrying wrappers shared by the entity and use-case modules. */
module Wrappers {

  /** The outcome of a step whose failure reason is not modelled. */
  datatype Option<+T> = None | Some(value: T)

  /** The outcome of a step that fails with a modelled error. */
  datatype Result<+T, +E> = Ok(value: T) | Err(error: E)
}
