/** A value that may be absent; stands for JavaScript's `null` in
    `selectedItem`. */
module Wrappers {

  datatype Option<T> = None | Some(value: T)
}
