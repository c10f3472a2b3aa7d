/** A value that may be missing. */
module Options {
  datatype Maybe<+T> = Nothing | Just(value: T)
}
