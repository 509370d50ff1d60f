/** The optional value used wherever the system has `None`. */
module Optional {
  datatype Option<+T> = None | Some(value: T)
}
