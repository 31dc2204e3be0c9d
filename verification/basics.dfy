/** Shared building blocks: an option type and sequences without repetitions. */
module Basics {

  datatype Option<+T> = None | Some(value: T)

  /** True iff no element of `s` occurs at two positions. */
  ghost predicate Distinct<T>(s: seq<T>) {
    forall i, j :: 0 <= i < j < |s| ==> s[i] != s[j]
  }

  function Max(a: int, b: int): int {
    if a < b then b else a
  }

  /** The later of two optional stamps; a missing stamp counts for nothing. */
  function MaxStamp(a: Option<int>, b: Option<int>): Option<int> {
    if a.None? then b
    else if b.None? then a
    else Some(Max(a.value, b.value))
  }
}
