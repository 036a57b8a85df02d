/** A value that may be missing: the null of a column, an absent header, a result that is not there. */
module Options {
  datatype Option<+T> = None | Some(value: T)
}
