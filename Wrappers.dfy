/** The optional value shared by the modules: a lookup, a choice or a saved
    setting that may be absent. */
module Wrappers {
  datatype Option<T> = None | Some(value: T)
}
