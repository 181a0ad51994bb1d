/** Optional values: an absent result (`null` in the calculator) is `None`. */
module Wrappers {

  datatype Option<+T> = None | Some(value: T)

}
