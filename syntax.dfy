/** Notions shared by the character-level prototype (src/shunt.py) and the
    token-level parser (src/main.py). */
module Syntax {

  /** The associativity column of both operator tables. */
  datatype Assoc = Left | Right

  /** `AsWritten` is the operator loop of the source; `Guarded` is the
      textbook loop that also stops when the stack becomes empty. */
  datatype Mode = AsWritten | Guarded

  /** ASCII decimal digits. */
  predicate IsDigit(c: char) {
    '0' <= c <= '9'
  }
}
