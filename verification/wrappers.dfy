/** Failure-compatible Option, used wherever the firmware can find nothing
    (an unchecked table index, an exhausted random stream, a missing key). */
module Wrappers {

  datatype Option<+T> = None | Some(value: T) {

    predicate IsFailure() {
      None?
    }

    function PropagateFailure<U>(): Option<U>
      requires None?
    {
      None
    }

    function Extract(): T
      requires Some?
    {
      value
    }

    function GetOr(default: T): T {
      match this
      case Some(v) => v
      case None() => default
    }
  }
}
