/** A value that may be absent: Go's nil pointers, empty time stamps and "ok" results. */
module Options {
  datatype Option<+T> = None | Some(value: T)
}
