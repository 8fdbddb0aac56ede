/** What several modules share: results that may be missing, and paths of objects on the bus. */
module Wrappers {

  datatype Option<T> = None | Some(value: T)

  type Path = string
}
