/** The Some/None datatype that stands in for Go's nil. */
module Optional {
  datatype Option<T> = None | Some(value: T)
}
