/** Small value types shared by every module of the model. */
module Base {

  /** Swift's `T?`. */
  datatype Option<T> = None | Some(value: T)

  /** The outcome of a Swift call marked `throws`: a value, or the error it threw. */
  datatype Result<T, E> = Success(value: T) | Failure(error: E)

  /** One element of Foundation's `Data`. */
  newtype byte = x: int | 0 <= x < 256
}
