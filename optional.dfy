/** An optional value: the outcome of a lookup that may have no answer. */
module Optional {
  datatype Option<+T> = None | Some(value: T)
}
