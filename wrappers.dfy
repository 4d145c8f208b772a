/** Failure-compatible wrappers used throughout the model: Python's `None`
    becomes `None`, and a raised exception becomes `Failure(error)`. */
module Wrappers {

  datatype Option<+T> = None | Some(value: T)

  datatype Result<+T, +E> = Success(value: T) | Failure(error: E)
}

/** The completion token ophyd hands back from `set()`, `trigger()` and
    `complete()`: only whether it has finished and whether it succeeded. */
module DeviceStatus {

  datatype Status = Status(done: bool, success: bool)

  /** A status that is finished and successful from the start (`NullStatus`). */
  const NullStatus := Status(true, true)

  /** A freshly created `DeviceStatus`, not yet finished. */
  const Pending := Status(false, false)
}
