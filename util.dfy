/**
 * Small value-level helpers shared by the model: an optional value for
 * dictionary keys that may be absent, Python's `sorted` on integer lists,
 * and `sum` on integer lists.
 */
module Util {

  /** A dictionary field that may be missing (`"key" in d` is `Some?`). */
  datatype Option<T> = None | Some(value: T)

  predicate IsSorted(s: seq<int>) {
    forall i, j :: 0 <= i < j < |s| ==> s[i] <= s[j]
  }

  /** Inserts `x` into an ascending list, keeping it ascending. */
  function Insert(x: int, s: seq<int>): (r: seq<int>)
    requires IsSorted(s)
    ensures IsSorted(r)
    ensures multiset(r) == multiset(s) + multiset{x}
    ensures |r| == |s| + 1
  {
    if s == [] || x <= s[0] then
      [x] + s
    else
      var tail := Insert(x, s[1..]);
      assert s == [s[0]] + s[1..];
      BoundedBelow(s[0], s[1..], x, tail);
      ConsSorted(s[0], tail);
      [s[0]] + tail
  }

  lemma ConsSorted(lo: int, t: seq<int>)
    requires IsSorted(t)
    requires forall k :: 0 <= k < |t| ==> lo <= t[k]
    ensures IsSorted([lo] + t)
  {
  }

  /** Every element of a permutation of `s + [x]` is at least `lo` when all of `s` and `x` are. */
  lemma BoundedBelow(lo: int, s: seq<int>, x: int, t: seq<int>)
    requires forall k :: 0 <= k < |s| ==> lo <= s[k]
    requires lo <= x
    requires multiset(t) == multiset(s) + multiset{x}
    ensures forall k :: 0 <= k < |t| ==> lo <= t[k]
  {
    forall k | 0 <= k < |t|
      ensures lo <= t[k]
    {
      assert t[k] in multiset(t);
      if t[k] != x {
        assert t[k] in multiset(s);
        var j :| 0 <= j < |s| && s[j] == t[k];
      }
    }
  }

  /** Python's `sorted` on a list of integers: an ascending permutation. */
  function Sort(s: seq<int>): (r: seq<int>)
    ensures IsSorted(r)
    ensures multiset(r) == multiset(s)
    ensures |r| == |s|
  {
    if s == [] then
      []
    else
      assert s == [s[0]] + s[1..];
      Insert(s[0], Sort(s[1..]))
  }

  /** Python's `sum` on a list of integers. */
  function Sum(s: seq<int>): int {
    if s == [] then 0 else Sum(s[..|s| - 1]) + s[|s| - 1]
  }

  /** Python's `min` on a non-empty list of reals. */
  function Min(s: seq<real>): (m: real)
    requires |s| > 0
    ensures m in s
    ensures forall k :: 0 <= k < |s| ==> m <= s[k]
  {
    if |s| == 1 then
      s[0]
    else
      var rest := Min(s[1..]);
      assert forall k :: 1 <= k < |s| ==> s[k] == s[1..][k - 1];
      if s[0] <= rest then s[0] else rest
  }
}
