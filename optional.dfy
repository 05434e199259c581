/** An absent-or-present value: JavaScript's undefined/null next to a real value. */
module Optional {
  datatype Option<+T> = None | Some(value: T)
}
