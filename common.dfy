/** Small definitions shared by the components. */
module Common {

  /** A TypeScript value that may be `null` or `undefined`. */
  datatype Option<+T> = None | Some(value: T)

  /** An ASCII decimal digit, as matched by `\d` without the unicode flag. */
  predicate IsDigit(c: char) {
    '0' <= c <= '9'
  }
}
