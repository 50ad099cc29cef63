/** The two sum types the model threads its partial results through. */
module Wrappers {

  /** A value that may be absent: an unparsed answer, a record no decoder
      reads, an unknown tag. */
  datatype Option<+T> = None | Some(value: T)

  /** `Failure` stands for an abort of the whole operation (a panic in the
      modelled program); `Success` carries the operation's value. */
  datatype Result<+R, +E> = Success(value: R) | Failure(error: E)
}
