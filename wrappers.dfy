/** Optional values: a JavaScript property that may be absent (`undefined`). */
module Wrappers {

  datatype Option<+T> = None | Some(value: T)

  /** `a ?? b` for an optional value: the value of `a` when present, otherwise `b`. */
  function OrElse<T>(a: Option<T>, b: T): T {
    match a
    case Some(v) => v
    case None => b
  }
}
