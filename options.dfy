/** An optional value: a field whose JavaScript counterpart may be '' or null. */
module Options {
  datatype Option<+T> = None | Some(value: T)
}
