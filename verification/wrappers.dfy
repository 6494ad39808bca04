/** Failure-compatible wrappers used throughout the model.
    `Option` stands for Python's `None`-or-value, `Result` for a call that
    either returns or raises. */
module Wrappers {

  /** A value that may be absent (Python `None`). */
  datatype Option<+T> = None | Some(value: T) {

    /** The carried value, or `default` when absent (Python `x or default`
        for non-falsy values, `dict.get(key, default)`). */
    function GetOr(default: T): (r: T)
      ensures Some? ==> r == value
      ensures None? ==> r == default
    {
      match this
      case Some(v) => v
      case None => default
    }
  }

  /** `d.get(key, default)` on a dictionary whose values may be `None`:
      `entry` is `None` when the key is missing and `Some(v)` when it is
      present with the value `v`, which may itself be `None`. A present
      `None` is returned as it is; only a missing key takes the default. */
  function DictGet<T>(entry: Option<Option<T>>, default: T): (r: Option<T>)
    ensures entry.None? ==> r == Some(default)
    ensures entry.Some? ==> r == entry.value
  {
    match entry
    case None => Some(default)
    case Some(v) => v
  }

  /** The outcome of a call that may raise: `Ok` carries the return value,
      `Raised` the reason the call ended with an exception. */
  datatype Result<+T, +E> = Ok(value: T) | Raised(error: E)
}
