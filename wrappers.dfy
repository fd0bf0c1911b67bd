/** Optional values, standing for Swift optionals (`T?`) and for nil handles. */
module Wrappers {

  datatype Option<+T> = None | Some(value: T)
}
