/** The optional value used for JavaScript's `null` and for a number that may be NaN. */
module Options {
  datatype Option<T> = None | Some(value: T)
}
