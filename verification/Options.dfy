/** The Some/None datatype every module here uses for a value that may be absent. */
module Options {
  datatype Option<+T> = None | Some(value: T)
}
