/** Small result types shared by every module. */
module Common {

  datatype Option<+T> = None | Some(value: T)

  /** The outcome of Python code that may raise: a value, or an exception of no further interest. */
  datatype Result<+T> = Ok(value: T) | Raised
}
