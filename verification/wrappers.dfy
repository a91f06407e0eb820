/** Helper types shared by the other modules. */
module Wrappers {

  /**
    A value that may be missing: the optional `externalId?` field of `Movie`,
    and the result of reading a number out of a path.
   */
  datatype Option<+T> = None | Some(value: T)
}
