/** A value that may be absent: a `null` state field, a missing DOM element,
    or `acceptedFiles[0]` of an empty list. */
module Wrappers {

  datatype Option<+T> = None | Some(value: T)
}
