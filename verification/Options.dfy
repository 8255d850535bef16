/** A value that may be missing: null, undefined, or a document that is not found. */
module Options {
  datatype Option<+T> = None | Some(value: T)
}
