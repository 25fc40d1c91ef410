/** Failure-carrying values shared by the cgroup and network models. */
module Wrappers {

  /** A value that may be absent: Go's nil, or "nothing found". */
  datatype Option<+T> = None | Some(value: T)

  /** A Go `(value, error)` pair where exactly one side is meaningful. */
  datatype Result<+T, +E> = Success(value: T) | Failure(error: E)
}
