/** Result types shared by the scanner and the parser. */
module Outcomes {

  /** Python's `None` or a value. */
  datatype Option<+T> = None | Some(value: T)

  /** The two Python exceptions the front end can raise instead of recovering. */
  datatype Exception =
    | IndexError  // `TokenList.peek` indexing past the end of the token list
    | TypeError   // `skip_line` called with one argument too many

  /** What a Python function that returns a value or raises yields. */
  datatype Outcome<+T> = Ok(value: T) | Raised(exc: Exception)

  /** What a Python procedure (a function returning nothing) yields. */
  datatype Status = Normal | Crashed(exc: Exception)
}
