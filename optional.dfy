/** Kotlin's nullable values: `null` is `None`. */
module Optional {
  datatype Option<+T> = None | Some(value: T)
}
