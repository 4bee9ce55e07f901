/** The optional value used for DOM lookups that may find nothing and for
    fields that the source declares as `T | null`. */
module Wrappers {

  datatype Option<+T> = None | Some(value: T)
}
