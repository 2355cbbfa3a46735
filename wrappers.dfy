/** Optional values, results with an error path, and Python truth values. */
module Wrappers {
  /** A value or nothing: Python's `None`, or an SQL NULL. */
  datatype Option<+T> = None | Some(value: T)

  /** A value, or the exception the source raises instead. */
  datatype Result<+T> = Success(value: T) | Failure(error: string)

  /** What a Python argument is, as far as `x is True` / `x is False` can tell. */
  datatype Flag = IsTrue | IsFalse | OtherValue
}
