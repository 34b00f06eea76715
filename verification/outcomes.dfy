/** Failure values shared by the model: the two C++ standard-library
    exceptions the renderer's start-up code can raise. None of them is
    caught, so each one ends the worker process. */
module Outcomes {

  datatype Option<+T> = None | Some(value: T)

  /** std::invalid_argument and std::out_of_range. */
  datatype Exception = InvalidArgument | OutOfRange

  /** The value a step computes, or the exception that ends the process. */
  datatype Result<+T> = Ok(value: T) | Err(error: Exception)
}
