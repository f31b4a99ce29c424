/** The optional value used for the registry's lookups and the output record's fields. */
module Wrappers {

  datatype Option<+T> = None | Some(value: T)
}
