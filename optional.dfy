/** An optional value, used for absent map entries and for Go's `error` results. */
module Optional {
  datatype Option<T> = None | Some(value: T)
}
