/** An optional value: an element or a measurement that may be absent. */
module Options {
  datatype Option<T> = None | Some(value: T)
}
