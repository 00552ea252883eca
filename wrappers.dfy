/** Failure-carrying values shared by the other modules. */
module Wrappers {

  datatype Option<+T> = None | Some(value: T)

  datatype Result<+T, +E> = Ok(value: T) | Err(error: E)

  /** The exceptions of the Python program that the model lets propagate. */
  datatype Error =
    | KeyError(key: string)          // a missing dictionary key
    | IndexError                     // an index past the end of a string or list
    | ValueError                     // a tuple unpacking of the wrong length
    | SqlError(sql: string)          // a statement the database refused
}
