/** Option and Result datatypes shared by the whole model.
    `None` stands for Java's `null`; `Err` for a thrown exception. */
module Wrappers {

  datatype Option<+T> = None | Some(value: T)

  /** The two exception classes the library throws. */
  datatype Error =
    | IllegalArgument   // java.lang.IllegalArgumentException
    | Runtime           // java.lang.RuntimeException (also a null dereference on a missing value)

  datatype Result<+T> = Ok(value: T) | Err(error: Error)
}
