/** Failure-carrying results shared by every stage of the pipeline. */
module Wrappers {

  datatype Option<+T> = None | Some(value: T)

  datatype Result<+T, +E> = Success(value: T) | Failure(error: E)

  /** The errors the Go package returns, one constructor per distinct message. */
  datatype Error =
    | DimensionMismatch              // "all images must have the same dimensions"
    | InvalidShape                   // "invalid shape"
    | CreateInputTensor(detail: string)   // "Error create input tensor: %w"
    | CreateOutputTensor(detail: string)  // "Error create output tensor: %w"
    | RunInference(detail: string)        // "Error run inference: %w"
}
