/** An optional value: `None` stands for the source's missing value or raised error. */
module Options {
  datatype Option<+T> = None | Some(value: T)
}
