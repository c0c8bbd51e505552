/**
 * `get_cell_ids`: the list of level-15 cell ids polled around a position.
 * The geometry (lat/lng to a cell, a cell's successor and predecessor on the
 * Hilbert curve) is not modelled: the origin cell id is an input and
 * `next()`/`prev()` are arbitrary functions on ids.
 */
module CellWalk {
  import opened Util

  /** `f` applied `n` times to `x`. */
  function Iterate(f: int -> int, x: int, n: nat): int {
    if n == 0 then x else f(Iterate(f, x, n - 1))
  }

  /** The unsorted walk after `n` rounds: origin, then (n-th successor, n-th predecessor) pairs. */
  function Walk(origin: int, succ: int -> int, pred: int -> int, n: nat): seq<int> {
    if n == 0 then [origin]
    else Walk(origin, succ, pred, n - 1) + [Iterate(succ, origin, n), Iterate(pred, origin, n)]
  }

  /** A cell id reached from the origin by at most `n` steps in one direction. */
  predicate Reached(id: int, origin: int, succ: int -> int, pred: int -> int, n: nat) {
    id == origin ||
    exists k :: 1 <= k <= n && (id == Iterate(succ, origin, k) || id == Iterate(pred, origin, k))
  }

  /** The walk has 2n+1 entries, and holds exactly the cells reached within `n` steps. */
  lemma {:induction false} WalkContents(origin: int, succ: int -> int, pred: int -> int, n: nat)
    ensures |Walk(origin, succ, pred, n)| == 2 * n + 1
    ensures forall id :: id in Walk(origin, succ, pred, n) <==> Reached(id, origin, succ, pred, n)
  {
    if n > 0 {
      WalkContents(origin, succ, pred, n - 1);
      var w := Walk(origin, succ, pred, n);
      forall id
        ensures id in w <==> Reached(id, origin, succ, pred, n)
      {
        if Reached(id, origin, succ, pred, n) && id != origin {
          var k :| 1 <= k <= n && (id == Iterate(succ, origin, k) || id == Iterate(pred, origin, k));
          if k < n {
            assert Reached(id, origin, succ, pred, n - 1);
          }
        }
        if id in Walk(origin, succ, pred, n - 1) && id != origin {
          var k :| 1 <= k <= n - 1 && (id == Iterate(succ, origin, k) || id == Iterate(pred, origin, k));
          assert 1 <= k <= n;
        }
      }
    }
  }

  lemma SameMembers(a: seq<int>, b: seq<int>)
    requires multiset(a) == multiset(b)
    ensures forall x :: x in a <==> x in b
  {
    forall x
      ensures x in a <==> x in b
    {
      assert x in a <==> x in multiset(a);
      assert x in b <==> x in multiset(b);
    }
  }

  /**
   * The cell ids polled around `origin`: the origin, its first `radius`
   * successors and its first `radius` predecessors, sorted ascending.
   * A negative radius, like `range` of a negative number, adds nothing.
   */
  method GetCellIds(origin: int, radius: int, succ: int -> int, pred: int -> int) returns (ids: seq<int>)
    ensures var n := if radius < 0 then 0 else radius;
      && IsSorted(ids)
      && |ids| == 2 * n + 1
      && multiset(ids) == multiset(Walk(origin, succ, pred, n))
      && (forall id :: id in ids <==> Reached(id, origin, succ, pred, n))
  {
    var walk := [origin];
    var right := succ(origin);
    var left := pred(origin);
    var rounds := if radius < 0 then 0 else radius;  // the length of range(radius)
    var i := 0;
    while i < rounds
      invariant 0 <= i <= rounds
      invariant right == Iterate(succ, origin, i + 1)
      invariant left == Iterate(pred, origin, i + 1)
      invariant walk == Walk(origin, succ, pred, i)
    {
      walk := walk + [right, left];
      right := succ(right);
      left := pred(left);
      i := i + 1;
    }
    ids := Sort(walk);
    WalkContents(origin, succ, pred, i);
    SameMembers(ids, walk);
  }
}
