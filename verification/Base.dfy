/** What every module here shares. */
module Base {
  datatype Option<+T> = None | Some(value: T)
}
