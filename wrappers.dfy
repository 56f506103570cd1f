/** The nullable values of the component (`session` is `null` until the first start). */
module Wrappers {
  datatype Option<+T> = None | Some(value: T)
}
