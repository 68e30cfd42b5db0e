/** A small Option type: used where a collaborator reference may be missing. */
module Wrappers {

  datatype Option<+T> = None | Some(value: T)
}
