/** A value that may be missing: pandas' NaN and NaT become None. */
module Options {
  datatype Option<+T> = None | Some(value: T)
}
