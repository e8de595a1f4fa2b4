/** The results of Java calls: a nullable return becomes an Option, a thrown exception a Result. */
module Wrappers {

  datatype Option<+T> = None | Some(value: T)

  /** The exceptions the classifiers throw: the exception class and its message. */
  datatype Failure =
    | IllegalArgument(message: string)
    | IllegalState(message: string)

  datatype Result<+T> = Ok(value: T) | Err(failure: Failure)
}
