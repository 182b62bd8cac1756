/** Option and Result, for values the scripts read that may be missing and for
    operations that either produce a value or fail. */
module Wrappers {

  /** `None` stands for a JavaScript `undefined` (a key absent from storage, a
      field absent from a message). */
  datatype Option<+T> = None | Some(value: T)

  datatype Result<+T, +E> = Ok(value: T) | Err(error: E)
}
