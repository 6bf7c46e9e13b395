/** A value that may be missing, a condition counted as a number, and the first text that is not
    empty. */
module Wrappers {
  datatype Option<+T> = None | Some(value: T)

  function One(b: bool): nat { if b then 1 else 0 }

  function Or(a: string, b: string): string { if a != "" then a else b }
}
