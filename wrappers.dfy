/** The optional value used for JavaScript's `undefined`: an absent field, a missing
    metadata entry, or a hole in a sparse array. */
module Wrappers {

  datatype Option<+T> = None | Some(value: T)
}
