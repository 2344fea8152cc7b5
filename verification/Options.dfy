/** An optional value: Go's nil pointers, zero times and missing rows. */
module Options {
  datatype Option<+T> = None | Some(value: T)
}
