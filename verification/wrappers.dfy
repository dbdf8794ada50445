/** Kotlin's nullable types (`T?`) and the Elvis operator. */
module Wrappers {

  /** A nullable value: `None` is Kotlin's `null`. */
  datatype Option<+T> = None | Some(value: T)

  /** Kotlin's `a ?: b`: the left operand unless it is null. */
  function OrElse<T>(a: Option<T>, b: Option<T>): (r: Option<T>)
    ensures a.Some? ==> r == a
    ensures a.None? ==> r == b
  {
    if a.Some? then a else b
  }
}
