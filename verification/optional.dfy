/** A value that may be absent: a lookup that can miss, a pattern that can fail to match. */
module Optional {

  datatype Option<+T> = None | Some(value: T)
}
