/** Kotlin's nullable types (`T?`): `None` stands for `null`. */
module Nullable {
  datatype Option<+T> = None | Some(value: T)
}
