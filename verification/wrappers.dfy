/** Optional values, used wherever the modelled C and C++ code returns a
    nullable pointer or scans for an entry that may be absent. */
module Wrappers {

  datatype Option<+T> = None | Some(value: T)
}
