/** A value that may be absent: a failed fetch, an undefined property, a missing index. */
module Optional {
  datatype Option<+T> = None | Some(value: T)
}
