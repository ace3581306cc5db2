/** The optional value used for results that may be missing (a null reference, or a query whose `First()` finds nothing). */
module Wrappers {
  datatype Option<+T> = None | Some(value: T)
}
