// Optional values and fallible results shared by the modules of the model.

module Common {

  /** A value that Go may leave nil: None plays the part of nil. */
  datatype Option<T> = None | Some(value: T)

  /** A Go `(value, error)` pair where exactly one side is meaningful. */
  datatype Result<T, E> = Ok(value: T) | Err(error: E)
  {
    predicate IsOk() { this.Ok? }
  }
}
