/** The conventional Some/None datatype, shared by every module. */
module Options {
  datatype Option<+T> = None | Some(value: T)
}
