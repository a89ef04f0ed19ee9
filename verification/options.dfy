/** Optional values: a JavaScript value that may be `null`/`undefined`, or a field that may be missing. */
module Options {
  datatype Option<+T> = None | Some(value: T)
}
