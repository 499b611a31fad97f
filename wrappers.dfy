/** The Option datatype used for values the source represents as `null`,
    `undefined` or an absent JSON property. */
module Wrappers {
  datatype Option<+T> = None | Some(value: T)
}
