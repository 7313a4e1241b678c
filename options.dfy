/** Swift's optional values (`Team?`), as a datatype. */
module Options {
  datatype Option<T> = None | Some(value: T)
}
