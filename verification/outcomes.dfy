/** Small failure-carrying datatypes shared by the learner modules. */
module Outcomes {

  /** A value that may be missing: Python's `None` return. */
  datatype Option<+T> = None | Some(value: T)

  /** Either a result or the exception the Python code would raise. */
  datatype Result<+T, +E> = Ok(value: T) | Err(error: E)
}
