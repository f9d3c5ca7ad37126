/** Searching a sequence from either end. */
module Sequences {

  /** The position of the first `x` in `s`, or `|s|` when there is none. */
  function IndexOf<T(==)>(s: seq<T>, x: T): (i: nat)
    ensures i <= |s| && (i < |s| ==> s[i] == x)
    ensures forall k :: 0 <= k < i ==> s[k] != x
  {
    if s == [] then 0 else if s[0] == x then 0 else 1 + IndexOf(s[1..], x)
  }

  /** An `x` with no `x` before it is the first one. */
  lemma IndexOfFirst<T>(s: seq<T>, x: T, i: nat)
    requires i < |s| && s[i] == x
    requires forall k :: 0 <= k < i ==> s[k] != x
    ensures IndexOf(s, x) == i
  {
  }

  /** The position of the last `x` in `s`, or `-1` when there is none. */
  function LastIndexOf<T(==)>(s: seq<T>, x: T): (i: int)
    ensures -1 <= i < |s| && (i >= 0 ==> s[i] == x)
    ensures forall k :: i < k < |s| ==> s[k] != x
  {
    if s == [] then -1 else if s[|s| - 1] == x then |s| - 1 else LastIndexOf(s[..|s| - 1], x)
  }

  /** In `a + [x] + b` with no `x` in `b`, the last `x` is the one between. */
  lemma LastIndexOfSeparator<T>(a: seq<T>, x: T, b: seq<T>)
    requires x !in b
    ensures LastIndexOf(a + [x] + b, x) == |a|
  {
    assert (a + [x] + b)[|a|] == x;
  }

  /** In `a + [c] + b` with no `x` in `[c] + b`, every `x` lies within `a`. */
  lemma LastIndexOfBefore<T>(a: seq<T>, c: T, b: seq<T>, x: T)
    requires c != x && x !in b
    ensures LastIndexOf(a + [c] + b, x) < |a|
  {
  }

  /** No element occurs twice. */
  predicate Distinct<T(==)>(s: seq<T>)
  {
    forall i, j :: 0 <= i < j < |s| ==> s[i] != s[j]
  }
}
