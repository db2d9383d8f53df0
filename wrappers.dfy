/** The nullable values of the budget record (`number | null`). */
module Wrappers {

  datatype Option<+T> = None | Some(value: T)
}
