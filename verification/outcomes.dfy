/** Failure-compatible wrappers used throughout the model: `Option` stands in
    for Ruby's `nil`-or-value, `Result` for a value-or-raised-exception. */
module Outcomes {

  datatype Option<+T> = None | Some(value: T)

  datatype Result<+T, +E> = Success(value: T) | Failure(error: E)
}
