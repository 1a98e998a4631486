/** Option and Result, used wherever the code returns `null`/`undefined`
    or throws. */
module Wrappers {

  datatype Option<+T> = None | Some(value: T)

  /** `Err` stands for a thrown JavaScript error; the text is its message. */
  datatype Result<+T> = Ok(value: T) | Err(message: string)
}
