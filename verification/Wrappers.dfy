/** The absent-or-present value used where the program has `X | None`. */
module Wrappers {

  datatype Option<+T> = None | Some(value: T)

  /** Python's `s[:n]` for a non-negative `n`. */
  function Prefix<T>(s: seq<T>, n: nat): seq<T> {
    if |s| <= n then s else s[..n]
  }
}
