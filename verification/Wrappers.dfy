/** Option and Result, and a few small notions shared by several modules. */
module Wrappers {

  datatype Option<+T> = None | Some(value: T)

  datatype Result<+T, +E> = Ok(value: T) | Err(error: E)

  /** A signed 64-bit integer n has -I64_LIMIT <= n < I64_LIMIT. */
  const I64_LIMIT: int := 0x8000_0000_0000_0000

  function Max(a: int, b: int): int { if a >= b then a else b }

  predicate Distinct<T(==)>(s: seq<T>) {
    forall i, j :: 0 <= i < j < |s| ==> s[i] != s[j]
  }

}
