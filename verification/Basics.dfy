/** Small things used everywhere. */
module Basics {
  /** A value that may be missing: a null XrdCl response object, for one. */
  datatype Option<+T> = None | Some(value: T)

  function Min(a: int, b: int): int {
    if a <= b then a else b
  }

  function Max(a: int, b: int): int {
    if a <= b then b else a
  }

  lemma ProductMonotone(d: nat, m: int, n: int)
    requires m <= n
    ensures d * m <= d * n
  {
  }
}
