/** Optional values, standing for the nullable references of the recorder. */
module Wrappers {

  datatype Option<+T> = None | Some(value: T)
}
