/** The usual Some/None wrapper, standing in for JavaScript's `undefined`/`null` where the source tests for presence. */
module Options {
  datatype Option<+T> = None | Some(value: T)
}
