/** Vocabulary shared by every module: optional values, clocks, identifiers. */
module Basics {

  datatype Option<+T> = None | Some(value: T)

  /** A point in time or a duration, in milliseconds. */
  type Time = int

  const SECOND: Time := 1000
  const MINUTE: Time := 60 * SECOND

  /** JavaScript's Math.floor(ms / 1000): whole seconds, rounding down. */
  function FloorSeconds(ms: Time): int { ms / SECOND }

  function Min(a: int, b: int): int { if a <= b then a else b }

  function Max(a: int, b: int): int { if a <= b then b else a }

  ghost predicate NoDuplicates<T>(s: seq<T>) {
    forall i, j :: 0 <= i < j < |s| ==> s[i] != s[j]
  }

  /** Every requested entry is among the granted ones. */
  predicate Covers<T(==)>(granted: seq<T>, requested: seq<T>) {
    forall entry :: entry in requested ==> entry in granted
  }
}
