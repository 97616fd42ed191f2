/** Small datatypes shared by the whole model. */
module Wrappers {

  /** A value that may be absent (Python's None). */
  datatype Option<+T> = None | Some(value: T)

  /** A computation that either yields a value or raises. */
  datatype Result<+T, +E> = Ok(value: T) | Err(error: E)

  /** A Python exception as the error handler of baka.py sees it:
      `type(e).__name__` and the text of `e.args`. */
  datatype Exception = Exception(name: string, args: string)
}
