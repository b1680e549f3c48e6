/** Optional values: a JavaScript value that may be null/undefined. */
module Base {
  datatype Option<+T> = None | Some(value: T)
}
