/** An optional value, used for JavaScript's `null` and `undefined` and for
    the links of an optional chain. */
module Wrappers {

  datatype Option<+T> = None | Some(value: T)
}
