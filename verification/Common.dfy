/** The one datatype that everything shares. */
module Common {

  /** A value that may be absent: the source's `null` and `undefined`. */
  datatype Option<+T> = None | Some(value: T)
}
