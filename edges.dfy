/**
 * Change detection over a sequence of readings: the number of places
 * where a reading differs from the one before it.
 */
module Edges {

  /** The last reading of `s`, or `init` when there is none. */
  function LastOr<T>(init: T, s: seq<T>): T
  {
    if s == [] then init else s[|s| - 1]
  }

  /**
   * The number of positions where consecutive readings of `[prev] + s`
   * differ.
   */
  function Changes<T(==)>(prev: T, s: seq<T>): (n: nat)
    ensures n <= |s|
  {
    if s == [] then 0
    else (if s[0] != prev then 1 else 0) + Changes(s[0], s[1..])
  }

  /** One more reading adds one change exactly when it differs from the last one. */
  lemma {:induction false} ChangesSnoc<T>(prev: T, s: seq<T>, x: T)
    ensures Changes(prev, s + [x]) == Changes(prev, s) + (if LastOr(prev, s) != x then 1 else 0)
  {
    if s != [] {
      assert (s + [x])[0] == s[0];
      assert (s + [x])[1..] == s[1..] + [x];
      ChangesSnoc(s[0], s[1..], x);
      assert LastOr(s[0], s[1..]) == LastOr(prev, s);
    }
  }

  /** A run of identical readings changes at most once: at its start, if it differs from `prev`. */
  lemma {:induction false} ChangesOfSteady<T>(prev: T, s: seq<T>, x: T)
    requires forall i :: 0 <= i < |s| ==> s[i] == x
    ensures Changes(prev, s) == (if s != [] && prev != x then 1 else 0)
  {
    if s != [] {
      ChangesOfSteady(x, s[1..], x);
    }
  }
}
