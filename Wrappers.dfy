/** The optional value used for lookups that may miss (symbol table probes, keyword arguments). */
module Wrappers {
  datatype Option<+T> = None | Some(value: T)
}
