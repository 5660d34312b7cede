/** Option, for results that may be missing (a search that finds nothing, a frame that reports no count). */
module Wrappers {

  datatype Option<+T> = None | Some(value: T)

}
