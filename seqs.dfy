/**
 * The sequence operations the source takes from its languages' standard
 * libraries: JavaScript's `Array.prototype.indexOf` and `splice`, Rust's
 * `Iterator::position`, `Vec::remove` and `slice::sort`.
 */
module Seqs {
  import opened Wrappers

  /** `indexOf`: the first index that holds `x`, or -1 when there is none. */
  function IndexOf<T(==)>(s: seq<T>, x: T): (i: int)
    ensures -1 <= i < |s|
    ensures i == -1 <==> x !in s
    ensures 0 <= i ==> s[i] == x && x !in s[..i]
  {
    if |s| == 0 then -1
    else if s[0] == x then 0
    else
      var j := IndexOf(s[1..], x);
      if j == -1 then -1
      else
        assert s[..j + 1] == [s[0]] + s[1..][..j];
        j + 1
  }

  /** `iter().position(|d| *d == x)`: a linear search for the first `x`. */
  method Position<T(==)>(s: seq<T>, x: T) returns (pos: Option<nat>)
    ensures pos.None? <==> x !in s
    ensures pos.Some? ==> pos.value < |s| && s[pos.value] == x && x !in s[..pos.value]
  {
    var i := 0;
    while i < |s|
      invariant 0 <= i <= |s|
      invariant x !in s[..i]
    {
      if s[i] == x {
        return Some(i);
      }
      assert s[..i + 1] == s[..i] + [s[i]];
      i := i + 1;
    }
    assert s[..i] == s;
    return None;
  }

  /** `Vec::remove(i)`: drops the element at index `i`. */
  function RemoveAt<T>(s: seq<T>, i: nat): (r: seq<T>)
    requires i < |s|
    ensures |r| == |s| - 1
    ensures forall k | 0 <= k < |r| :: r[k] == if k < i then s[k] else s[k + 1]
    ensures multiset(r) == multiset(s) - multiset{s[i]}
  {
    assert s == s[..i] + [s[i]] + s[i + 1..];
    s[..i] + s[i + 1..]
  }

  /** Removes the first element equal to `x`, or nothing when `x` is absent. */
  function RemoveFirst<T(==)>(s: seq<T>, x: T): (r: seq<T>)
    ensures x !in s ==> r == s
    ensures x in s ==> |r| == |s| - 1 && multiset(r) == multiset(s) - multiset{x}
    ensures x in s ==> r == RemoveAt(s, IndexOf(s, x))
  {
    var i := IndexOf(s, x);
    if i < 0 then s else RemoveAt(s, i)
  }

  /**
   * `splice(start, 1)` on a copy of `s`: a negative `start` counts back from
   * the end (clamped at 0), and a start at or past the end removes nothing.
   */
  function SpliceOne<T>(s: seq<T>, start: int): (r: seq<T>)
    ensures 0 <= start < |s| ==> r == RemoveAt(s, start)
    ensures -|s| <= start < 0 ==> r == RemoveAt(s, |s| + start)
    ensures start < -|s| ==> r == if |s| == 0 then s else RemoveAt(s, 0)
    ensures |s| <= start ==> r == s
    ensures |r| == if s == [] || |s| <= start then |s| else |s| - 1
  {
    var from := if start < 0 then (if |s| + start < 0 then 0 else |s| + start)
                else (if start < |s| then start else |s|);
    if from < |s| then RemoveAt(s, from) else s
  }

  /** `s` is in ascending order of `rank`. */
  ghost predicate SortedBy<T>(s: seq<T>, rank: T -> nat)
  {
    forall i, j | 0 <= i < j < |s| :: rank(s[i]) <= rank(s[j])
  }

  /** Removing any element keeps a sorted sequence sorted. */
  lemma RemoveAtSorted<T>(s: seq<T>, i: nat, rank: T -> nat)
    requires i < |s| && SortedBy(s, rank)
    ensures SortedBy(RemoveAt(s, i), rank)
  {
    var r := RemoveAt(s, i);
    forall a, b | 0 <= a < b < |r| ensures rank(r[a]) <= rank(r[b]) {
      var a' := if a < i then a else a + 1;
      var b' := if b < i then b else b + 1;
      assert r[a] == s[a'] && r[b] == s[b'] && a' < b';
    }
  }

  /** Inserts `x` before the first element of a sorted `s` that does not rank below it. */
  function InsertBy<T>(x: T, s: seq<T>, rank: T -> nat): (r: seq<T>)
    requires SortedBy(s, rank)
    ensures SortedBy(r, rank)
    ensures multiset(r) == multiset(s) + multiset{x}
    ensures |r| == |s| + 1
  {
    if |s| == 0 || rank(x) <= rank(s[0]) then
      [x] + s
    else
      var rest := InsertBy(x, s[1..], rank);
      assert forall k | 0 <= k < |s[1..]| :: rank(s[0]) <= rank(s[1..][k]);
      LowerBound(rest, s[1..], x, rank(s[0]), rank);
      assert s == [s[0]] + s[1..];
      [s[0]] + rest
  }

  /** A rearrangement of `s` plus `x` keeps a lower bound on rank that `s` and `x` share. */
  lemma LowerBound<T>(r: seq<T>, s: seq<T>, x: T, lo: nat, rank: T -> nat)
    requires multiset(r) == multiset(s) + multiset{x}
    requires lo <= rank(x)
    requires forall k | 0 <= k < |s| :: lo <= rank(s[k])
    ensures forall k | 0 <= k < |r| :: lo <= rank(r[k])
  {
    forall k | 0 <= k < |r| ensures lo <= rank(r[k]) {
      assert r[k] in multiset(r);
      if r[k] != x {
        assert r[k] in multiset(s);
        var m :| 0 <= m < |s| && s[m] == r[k];
      }
    }
  }

  /** An insertion sort: the ascending, stable rearrangement of `s` by `rank`. */
  function SortBy<T>(s: seq<T>, rank: T -> nat): (r: seq<T>)
    ensures SortedBy(r, rank)
    ensures multiset(r) == multiset(s)
  {
    if |s| == 0 then []
    else
      assert s == [s[0]] + s[1..];
      InsertBy(s[0], SortBy(s[1..], rank), rank)
  }

  /** The first elements of two sorted rearrangements of one multiset have the same rank. */
  lemma SortedHeadsRank<T>(a: seq<T>, b: seq<T>, rank: T -> nat)
    requires SortedBy(a, rank) && SortedBy(b, rank)
    requires |a| > 0 && multiset(a) == multiset(b)
    ensures |b| > 0 && rank(a[0]) == rank(b[0])
  {
    assert a[0] in multiset(b);
    assert b[0] in multiset(a);
    var i :| 0 <= i < |b| && b[i] == a[0];
    var j :| 0 <= j < |a| && a[j] == b[0];
    assert rank(b[0]) <= rank(b[i]);
    assert rank(a[0]) <= rank(a[j]);
  }

  /** Dropping the first element keeps a sequence sorted. */
  lemma SortedTail<T>(s: seq<T>, rank: T -> nat)
    requires |s| > 0 && SortedBy(s, rank)
    ensures SortedBy(s[1..], rank)
  {
    forall i, j | 0 <= i < j < |s| - 1 ensures rank(s[1..][i]) <= rank(s[1..][j]) {
      assert s[1..][i] == s[i + 1] && s[1..][j] == s[j + 1];
    }
  }

  /** The rest of a sequence holds its multiset without the first element. */
  lemma MultisetTail<T>(s: seq<T>)
    requires |s| > 0
    ensures multiset(s[1..]) == multiset(s) - multiset{s[0]}
  {
    assert s == [s[0]] + s[1..];
  }

  /**
   * When `rank` tells elements apart, a sequence has exactly one sorted
   * rearrangement: every correct sorting routine gives the same result.
   */
  lemma {:induction false} SortedPermutationUnique<T>(a: seq<T>, b: seq<T>, rank: T -> nat)
    requires forall x, y | rank(x) == rank(y) :: x == y
    requires SortedBy(a, rank) && SortedBy(b, rank)
    requires multiset(a) == multiset(b)
    ensures a == b
  {
    if |a| == 0 {
      assert |b| == |multiset(b)| == 0;
    } else {
      SameHeads(a, b, rank);
      SortedPermutationUnique(a[1..], b[1..], rank);
      assert a == [a[0]] + a[1..] && b == [b[0]] + b[1..];
    }
  }

  /** Two sorted rearrangements of one multiset start alike and go on with sorted rearrangements. */
  lemma SameHeads<T>(a: seq<T>, b: seq<T>, rank: T -> nat)
    requires forall x, y | rank(x) == rank(y) :: x == y
    requires SortedBy(a, rank) && SortedBy(b, rank)
    requires |a| > 0 && multiset(a) == multiset(b)
    ensures |b| > 0 && a[0] == b[0]
    ensures SortedBy(a[1..], rank) && SortedBy(b[1..], rank)
    ensures multiset(a[1..]) == multiset(b[1..])
  {
    SortedHeadsRank(a, b, rank);
    assert rank(a[0]) == rank(b[0]);
    MultisetTail(a);
    MultisetTail(b);
    SortedTail(a, rank);
    SortedTail(b, rank);
  }

  /**
   * Adding an element to a sorted sequence, sorting, and removing the first
   * copy of the element gives the sequence back.
   */
  lemma AddRemoveSorted<T>(s: seq<T>, x: T, rank: T -> nat)
    requires forall a, b | rank(a) == rank(b) :: a == b
    requires SortedBy(s, rank)
    ensures RemoveFirst(SortBy(s + [x], rank), x) == s
  {
    assert multiset(s + [x]) == multiset(s) + multiset{x};
    RemoveAdded(SortBy(s + [x], rank), s, x, rank);
  }

  /** Removing `x` from a sorted rearrangement of `s` plus `x` leaves the sorted `s`. */
  lemma RemoveAdded<T>(added: seq<T>, s: seq<T>, x: T, rank: T -> nat)
    requires forall a, b | rank(a) == rank(b) :: a == b
    requires SortedBy(added, rank) && SortedBy(s, rank)
    requires multiset(added) == multiset(s) + multiset{x}
    ensures RemoveFirst(added, x) == s
  {
    assert x in multiset(added);
    var i := IndexOf(added, x);
    var r := RemoveAt(added, i);
    assert r == RemoveFirst(added, x);
    RemoveAtSorted(added, i, rank);
    SortedPermutationUnique(r, s, rank);
  }

  /** The elements of `s` that are in `keep`, in their order in `s`. */
  function Filter<T(==)>(s: seq<T>, keep: set<T>): (r: seq<T>)
    ensures |r| <= |s|
    ensures forall k | 0 <= k < |r| :: r[k] in s && r[k] in keep
  {
    if |s| == 0 then []
    else Filter(s[..|s| - 1], keep) + (if s[|s| - 1] in keep then [s[|s| - 1]] else [])
  }

  /** Filtering a sequence with one more element: the filtered front, then the element if kept. */
  lemma FilterSnoc<T>(init: seq<T>, x: T, keep: set<T>)
    ensures Filter(init + [x], keep) == Filter(init, keep) + (if x in keep then [x] else [])
  {
    assert (init + [x])[..|init|] == init;
  }

  /** Filtering keeps a sequence whose elements are all kept. */
  lemma {:induction false} FilterAll<T>(s: seq<T>, keep: set<T>)
    requires forall x <- s :: x in keep
    ensures Filter(s, keep) == s
  {
    if |s| > 0 {
      FilterAll(s[..|s| - 1], keep);
      assert s[..|s| - 1] + [s[|s| - 1]] == s;
    }
  }
}
