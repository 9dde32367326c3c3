/** Optional values: the nullable references and nullable structs of the grid. */
module Wrappers {

  datatype Option<+T> = None | Some(value: T)
}
