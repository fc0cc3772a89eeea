// Stable sorting by two descending numbers, and the in-place insertion sort that computes it.

module Sorting {

  /** What rows are ordered by: the greater first number comes first, then the greater second one. */
  datatype Key = Key(first: int, second: int)

  predicate Before(a: Key, b: Key) {
    a.first > b.first || (a.first == b.first && a.second > b.second)
  }

  /** Put x after every element it does not come before. */
  function InsertRight<T>(s: seq<T>, x: T, key: T -> Key): seq<T> {
    if s == [] || !Before(key(x), key(s[|s| - 1])) then s + [x]
    else InsertRight(s[..|s| - 1], x, key) + [s[|s| - 1]]
  }

  function StableSort<T>(xs: seq<T>, key: T -> Key): seq<T> {
    if xs == [] then [] else InsertRight(StableSort(xs[..|xs| - 1], key), xs[|xs| - 1], key)
  }

  // ----- What makes it the stable sort -----------------------------------------------

  ghost predicate SortedBy<T>(ys: seq<T>, key: T -> Key) {
    forall i, j :: 0 <= i < j < |ys| ==> !Before(key(ys[j]), key(ys[i]))
  }

  /** The elements with one key, in the order they stand. */
  function Group<T>(xs: seq<T>, key: T -> Key, k: Key): seq<T> {
    if xs == [] then []
    else Group(xs[..|xs| - 1], key, k) + (if key(xs[|xs| - 1]) == k then [xs[|xs| - 1]] else [])
  }

  lemma GroupAppend<T>(xs: seq<T>, x: T, key: T -> Key, k: Key)
    ensures Group(xs + [x], key, k) == Group(xs, key, k) + (if key(x) == k then [x] else [])
  {
    assert (xs + [x])[..|xs|] == xs;
  }

  lemma {:induction false} InsertRightGroups<T>(s: seq<T>, x: T, key: T -> Key, k: Key)
    requires SortedBy(s, key)
    ensures Group(InsertRight(s, x, key), key, k) == Group(s, key, k) + (if key(x) == k then [x] else [])
  {
    if s == [] || !Before(key(x), key(s[|s| - 1])) {
      GroupAppend(s, x, key, k);
    } else {
      var init, last := s[..|s| - 1], s[|s| - 1];
      InsertRightGroups(init, x, key, k);
      GroupAppend(InsertRight(init, x, key), last, key, k);
    }
  }

  lemma {:induction false} InsertRightMembers<T>(s: seq<T>, x: T, key: T -> Key)
    ensures multiset(InsertRight(s, x, key)) == multiset(s) + multiset{x}
    ensures var r := InsertRight(s, x, key); forall i :: 0 <= i < |r| ==> r[i] == x || r[i] in s
  {
    if s != [] && Before(key(x), key(s[|s| - 1])) {
      assert s == s[..|s| - 1] + [s[|s| - 1]];
      InsertRightMembers(s[..|s| - 1], x, key);
    }
  }

  lemma {:induction false} InsertRightSorted<T>(s: seq<T>, x: T, key: T -> Key)
    requires SortedBy(s, key)
    ensures SortedBy(InsertRight(s, x, key), key)
  {
    if s != [] && Before(key(x), key(s[|s| - 1])) {
      var init, last := s[..|s| - 1], s[|s| - 1];
      InsertRightSorted(init, x, key);
      InsertRightMembers(init, x, key);
      assert s == init + [last];
      SortedAppend(InsertRight(init, x, key), last, init, x, key);
    }
  }

  lemma SortedAppend<T>(r: seq<T>, last: T, init: seq<T>, x: T, key: T -> Key)
    requires SortedBy(r, key) && SortedBy(init + [last], key) && !Before(key(last), key(x))
    requires forall i :: 0 <= i < |r| ==> r[i] == x || r[i] in init
    ensures SortedBy(r + [last], key)
  {
    forall i | 0 <= i < |r| ensures !Before(key(last), key(r[i])) {
      if r[i] != x {
        var j :| 0 <= j < |init| && init[j] == r[i];
        assert (init + [last])[j] == r[i] && (init + [last])[|init|] == last;
      }
    }
  }

  /** StableSort sorts, loses and adds nothing, and keeps elements with equal keys in their order. */
  lemma {:induction false} StableSortSorts<T>(xs: seq<T>, key: T -> Key)
    ensures SortedBy(StableSort(xs, key), key)
    ensures multiset(StableSort(xs, key)) == multiset(xs)
    ensures forall k :: Group(StableSort(xs, key), key, k) == Group(xs, key, k)
  {
    if xs != [] {
      var init, x := xs[..|xs| - 1], xs[|xs| - 1];
      assert xs == init + [x];
      StableSortSorts(init, key);
      InsertRightSorted(StableSort(init, key), x, key);
      InsertRightMembers(StableSort(init, key), x, key);
      forall k ensures Group(StableSort(xs, key), key, k) == Group(xs, key, k) {
        InsertRightGroups(StableSort(init, key), x, key, k);
      }
    }
  }

  lemma StableSortMembers<T>(xs: seq<T>, key: T -> Key)
    ensures forall x :: x in StableSort(xs, key) <==> x in xs
  {
    StableSortSorts(xs, key);
    forall x ensures x in StableSort(xs, key) <==> x in xs {
      assert x in multiset(StableSort(xs, key)) <==> x in multiset(xs);
    }
  }

  lemma {:induction false} GroupMembers<T>(xs: seq<T>, key: T -> Key, k: Key)
    ensures forall x :: x in Group(xs, key, k) <==> x in xs && key(x) == k
  {
    if xs != [] {
      var init, last := xs[..|xs| - 1], xs[|xs| - 1];
      assert xs == init + [last];
      GroupMembers(init, key, k);
    }
  }

  /** The last element of a sorted list is the last of the group that comes last. */
  lemma LastOfSorted<T>(ys: seq<T>, zs: seq<T>, key: T -> Key)
    requires SortedBy(ys, key) && SortedBy(zs, key) && ys != []
    requires forall k :: Group(ys, key, k) == Group(zs, key, k)
    ensures zs != [] && ys[|ys| - 1] == zs[|zs| - 1]
  {
    var y := ys[|ys| - 1];
    GroupMembers(ys, key, key(y));
    GroupMembers(zs, key, key(y));
    assert y in ys && y in Group(zs, key, key(y)) && y in zs;
    var z := zs[|zs| - 1];
    GroupMembers(ys, key, key(z));
    GroupMembers(zs, key, key(z));
    assert z in zs && z in Group(ys, key, key(z)) && z in ys;
    var i :| 0 <= i < |ys| && ys[i] == z;
    var j :| 0 <= j < |zs| && zs[j] == y;
    assert !Before(key(y), key(z)) && !Before(key(z), key(y));
    assert key(y) == key(z);
    assert Group(ys, key, key(y))[|Group(ys, key, key(y))| - 1] == y;
    assert Group(zs, key, key(y))[|Group(zs, key, key(y))| - 1] == z;
  }

  lemma Cancel<T>(a: seq<T>, b: seq<T>, tail: seq<T>)
    requires a + tail == b + tail
    ensures a == b
  {
    assert |a| == |b|;
    assert a == (a + tail)[..|a|] && b == (b + tail)[..|b|];
  }

  /** There is only one list that is sorted and keeps every group: the stable sort is unique. */
  lemma {:induction false} StableSortUnique<T>(ys: seq<T>, zs: seq<T>, key: T -> Key)
    requires SortedBy(ys, key) && SortedBy(zs, key)
    requires forall k :: Group(ys, key, k) == Group(zs, key, k)
    ensures ys == zs
    decreases |ys|
  {
    if ys == [] && zs == [] {
    } else if ys == [] {
      LastOfSorted(zs, ys, key);
    } else {
      LastOfSorted(ys, zs, key);
      var y := ys[|ys| - 1];
      var a, b := ys[..|ys| - 1], zs[..|zs| - 1];
      forall k ensures Group(a, key, k) == Group(b, key, k) {
        assert Group(ys, key, k) == Group(zs, key, k);
        GroupAppend(a, y, key, k);
        GroupAppend(b, y, key, k);
        assert a + [y] == ys && b + [y] == zs;
        Cancel(Group(a, key, k), Group(b, key, k), if key(y) == k then [y] else []);
      }
      StableSortUnique(a, b, key);
      assert ys == a + [y] && zs == b + [y];
    }
  }

  // ----- In place --------------------------------------------------------------------

  /** The insertion sort of the rule generator: each element is swapped down past those it comes before. */
  method InsertionSort<T>(a: array<T>, key: T -> Key)
    modifies a
    ensures a[..] == StableSort(old(a[..]), key)
  {
    ghost var was := a[..];
    if a.Length == 0 {
      return;
    }
    FirstOnly(was, key);
    for i := 1 to a.Length
      invariant a[..i] == StableSort(was[..i], key) && a[i..] == was[i..]
    {
      SortedPrefix(was, key, i);
      assert a[i] == a[i..][0] && was[i + 1..] == was[i..][1..];
      SwapDown(a, i, key);
    }
    assert a[..] == a[..a.Length] && was == was[..a.Length];
  }

  /** The inner loop: swap element i down while it comes before its neighbour. */
  method SwapDown<T>(a: array<T>, i: nat, key: T -> Key)
    requires i < a.Length
    modifies a
    ensures a[..i + 1] == InsertRight(old(a[..i]), old(a[i]), key) && a[i + 1..] == old(a[i + 1..])
  {
    ghost var sorted, x := a[..i], a[i];
    var j := i;
    assert sorted[..i] == sorted && sorted[i..] == [];
    while j > 0 && Before(key(a[j]), key(a[j - 1]))
      invariant 0 <= j <= i && a[j] == x
      invariant forall k :: 0 <= k < j ==> a[k] == sorted[k]
      invariant forall k :: j < k <= i ==> a[k] == sorted[k - 1]
      invariant forall k :: i < k < a.Length ==> a[k] == old(a[k])
      invariant InsertRight(sorted, x, key) == InsertRight(sorted[..j], x, key) + sorted[j..]
    {
      PassOne(sorted, x, key, j);
      a[j], a[j - 1] := a[j - 1], a[j];
      j := j - 1;
    }
    Settle(sorted, x, key, j, a[..i + 1]);
  }

  /** The element moves down past one it comes before... */
  lemma PassOne<T>(sorted: seq<T>, x: T, key: T -> Key, j: nat)
    requires 0 < j <= |sorted| && Before(key(x), key(sorted[j - 1]))
    ensures InsertRight(sorted[..j], x, key) + sorted[j..] == InsertRight(sorted[..j - 1], x, key) + sorted[j - 1..]
  {
    assert sorted[..j][..j - 1] == sorted[..j - 1];
    assert sorted[j - 1..] == [sorted[j - 1]] + sorted[j..];
  }

  /** ... and stays where it comes before no more. */
  lemma Settle<T>(sorted: seq<T>, x: T, key: T -> Key, j: nat, s: seq<T>)
    requires j <= |sorted| && (j > 0 ==> !Before(key(x), key(sorted[j - 1])))
    requires |s| == |sorted| + 1 && s[j] == x
    requires forall k :: 0 <= k < j ==> s[k] == sorted[k]
    requires forall k :: j < k < |s| ==> s[k] == sorted[k - 1]
    ensures InsertRight(sorted[..j], x, key) + sorted[j..] == s
  {
    assert s == sorted[..j] + [x] + sorted[j..];
  }

  lemma SortedPrefix<T>(xs: seq<T>, key: T -> Key, i: nat)
    requires i < |xs|
    ensures StableSort(xs[..i + 1], key) == InsertRight(StableSort(xs[..i], key), xs[i], key)
  {
    assert xs[..i + 1][..i] == xs[..i];
  }

  lemma FirstOnly<T>(xs: seq<T>, key: T -> Key)
    requires xs != []
    ensures StableSort(xs[..1], key) == xs[..1]
  {
    assert xs[..1][..0] == [] && xs[..1] == [xs[0]];
  }
}
