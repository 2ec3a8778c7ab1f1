/** An optional value: `None` stands for JavaScript's `null` or `undefined`. */
module Options {
  datatype Option<+T> = None | Some(value: T)
}
