/** The usual optional-value wrapper, used for references the source may leave null. */
module Wrappers {

  datatype Option<+T> = None | Some(value: T)
}
