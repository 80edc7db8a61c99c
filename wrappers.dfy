/** Optional values, used where the PHP code would yield "no such entry". */
module Wrappers {

  datatype Option<+T> = None | Some(value: T)

}
