/** Option and Result types shared by the modules of the model. */
module Wrappers {

  /** `None` stands for JavaScript's `null` (or an absent value). */
  datatype Option<+T> = None | Some(value: T)

  /** The outcome of an operation that the source aborts with an alert. */
  datatype Result<+T, +E> = Ok(value: T) | Err(error: E)
}
