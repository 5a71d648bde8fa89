/** The optional value used wherever the source returns or stores a nullable one. */
module Optional {
  datatype Option<+T> = None | Some(value: T)
}
