/** Go's nilable values. */
module Optional {

  /** A nilable value: None is Go's nil. */
  datatype Option<+T> = None | Some(value: T)
}
