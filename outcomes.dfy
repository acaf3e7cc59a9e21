/** Outcomes of the theme generator's operations.

    The program aborts (a Rust panic, an `unwrap` of `None`, an `expect`) on every
    error it meets; here each abort is a value `Abort(f)` whose `Failure` names the
    cause, so that callers and lemmas can say when it happens. */
module Outcomes {

  /** The causes of an abort. */
  datatype Failure =
    | NotCharBoundary        // a byte offset used to slice a string is not a char boundary
    | HexRejected            // `Color::from_hex(..).unwrap()` on a text it rejects
    | MissingKey(key: string)          // `colors[key]` on a palette without that key
    | Undefined(name: string)          // `get_element`: "Could not find '<name>' ..."
    | NotAColor(name: string)          // `get_element`: "Color should not be none"
    | BadPaletteKey(key: string)       // the palette-key sort cannot parse a key's suffix
    | EmptyPalette           // `colors.len() - 1` underflows (a panic under overflow checks)
    | EmptyFilepath          // "Palette filename is empty"
    | BadIndex(digits: string)         // a custom-palette index does not fit in usize
    | CountProblem           // "The palette has a color count problem ..."
    | TooFewColors           // "The palette has N colors but needs at least 16."

  /** An optional value (Rust's `Option`). */
  datatype Option<+T> = None | Some(value: T)

  /** A value, or the reason the program aborted. Failure-compatible, so `:-` propagates aborts. */
  datatype Result<+T> = Ok(value: T) | Abort(failure: Failure) {

    predicate IsFailure() {
      Abort?
    }

    function PropagateFailure<U>(): Result<U>
      requires Abort?
    {
      Abort(failure)
    }

    function Extract(): T
      requires Ok?
    {
      value
    }
  }
}
