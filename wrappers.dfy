/** Option, used for values a computation may not produce (an undefined
    moving average, a symbol whose analysis failed). */
module Wrappers {
  datatype Option<+T> = None | Some(value: T)
}
