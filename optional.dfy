/** The usual Some/None wrapper, used for lookups that may find nothing
    (JavaScript's `null` result of a query) and operations that may fail. */
module Optional {
  datatype Option<+T> = None | Some(value: T)
}
