/** Outcome types and the arithmetic and sequence facts that several components share. */
module Prelude {
  datatype Option<+T> = None | Some(value: T)

  datatype Result<+T, +E> = Ok(value: T) | Err(error: E)

  function Max(a: int, b: int): int { if a > b then a else b }

  function Min(a: int, b: int): int { if a < b then a else b }

  /** A factor of at least one never makes a positive number smaller. */
  lemma ScaledUp(x: real, h: real)
    requires x >= 1.0 && h > 0.0
    ensures x * h >= h
    ensures x > 1.0 ==> x * h > h
  {
    assert (x - 1.0) * h >= 0.0;
    if x > 1.0 { assert (x - 1.0) * h > 0.0; }
  }

  /** The elements of a nonempty sequence are those of its front and its last. */
  lemma SplitLast<T>(s: seq<T>)
    requires s != []
    ensures s == s[..|s| - 1] + [s[|s| - 1]]
    ensures multiset(s) == multiset(s[..|s| - 1]) + multiset{s[|s| - 1]}
  {
    assert s == s[..|s| - 1] + [s[|s| - 1]];
  }
}
