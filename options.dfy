/** Nullable values of the source (`string | null`, `Date | null`). */
module Options {

  datatype Option<+T> = None | Some(value: T)
}
