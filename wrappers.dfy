/** Optional values, used for the decoders that invert the argument encodings. */
module Wrappers {
  datatype Option<+T> = None | Some(value: T)
}
