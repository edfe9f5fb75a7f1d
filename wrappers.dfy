/** Failure-compatible result types shared by the model. */
module Wrappers {

  /** A value that may be missing: a raster cell holding NoData, a layer that was not produced. */
  datatype Option<T> = None | Some(value: T)

  /** The outcome of an operation that the tools abort with an error message. */
  datatype Result<T> = Success(value: T) | Failure(error: string)
}
