/** Kotlin's nullable values (`T?`), written as an explicit option type. */
module Options {

  /** `None` stands for Kotlin's `null`. */
  datatype Option<+T> = None | Some(value: T)
}
