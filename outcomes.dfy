/** Failure-carrying results and the Java exceptions the modelled code can raise. */
module Outcomes {

  datatype Option<+T> = None | Some(value: T)

  datatype Result<+T, +E> = Success(value: T) | Failure(error: E)

  /** The exceptions thrown by the modelled Java code, with the data they carry. */
  datatype JavaException =
    | ArrayIndexOutOfBounds(index: int, length: int)
    | NoSuchElement(message: string)
    | Runtime(message: string)
}
