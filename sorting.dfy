/** The sort the source gets from `Array.prototype.sort(compare)`: a stable sort
    driven by a comparator whose sign says which element goes first (a NaN result
    already mapped to 0 by the caller). Modelled as insertion sort, which is stable. */
module Sorting {
  import opened Seqs

  /** Inserts `x` just before the first element that compares greater than it,
      so `x` lands after every element it ties with. */
  function Insert<T>(x: T, s: seq<T>, cmp: (T, T) -> int): (r: seq<T>)
    ensures |r| == |s| + 1
  {
    if s == [] then [x]
    else if cmp(s[0], x) > 0 then [x] + s
    else
      assert s == [s[0]] + s[1..];
      [s[0]] + Insert(x, s[1..], cmp)
  }

  /** Inserting adds `x` and keeps everything else. */
  lemma {:induction false} InsertPermutes<T>(x: T, s: seq<T>, cmp: (T, T) -> int)
    ensures multiset(Insert(x, s, cmp)) == multiset(s) + multiset{x}
  {
    if s != [] && cmp(s[0], x) <= 0 {
      InsertPermutes(x, s[1..], cmp);
      assert s == [s[0]] + s[1..];
    }
  }

  /** Stable sort of `s` under `cmp`: the result is a permutation of `s`. */
  function SortBy<T>(s: seq<T>, cmp: (T, T) -> int): (r: seq<T>)
    ensures |r| == |s|
    ensures multiset(r) == multiset(s)
    decreases |s|
  {
    if s == [] then []
    else
      assert s == s[..|s| - 1] + [s[|s| - 1]];
      InsertPermutes(s[|s| - 1], SortBy(s[..|s| - 1], cmp), cmp);
      Insert(s[|s| - 1], SortBy(s[..|s| - 1], cmp), cmp)
  }

  /** No element compares greater than an element after it. */
  ghost predicate SortedBy<T>(s: seq<T>, cmp: (T, T) -> int)
  {
    forall i, j :: 0 <= i < j < |s| ==> cmp(s[i], s[j]) <= 0
  }

  /** `y` goes no later than any element of `s`. */
  ghost predicate LowerBound<T>(y: T, s: seq<T>, cmp: (T, T) -> int)
  {
    forall i :: 0 <= i < |s| ==> cmp(y, s[i]) <= 0
  }

  /** Every element of `s` satisfies `ok`. */
  ghost predicate AllOk<T>(s: seq<T>, ok: T -> bool)
  {
    forall i :: 0 <= i < |s| ==> ok(s[i])
  }

  /** On the elements `ok` admits, `cmp` is a total preorder: any two compare one way
      or the other, and "not greater" is transitive. */
  ghost predicate PreorderOn<T(!new)>(cmp: (T, T) -> int, ok: T -> bool)
  {
    && (forall a, b :: ok(a) && ok(b) ==> cmp(a, b) <= 0 || cmp(b, a) <= 0)
    && (forall a, b, c :: ok(a) && ok(b) && ok(c) && cmp(a, b) <= 0 && cmp(b, c) <= 0 ==> cmp(a, c) <= 0)
  }

  lemma SortedCons<T>(s: seq<T>, cmp: (T, T) -> int)
    requires s != []
    ensures SortedBy(s, cmp) <==> LowerBound(s[0], s[1..], cmp) && SortedBy(s[1..], cmp)
  {
    if LowerBound(s[0], s[1..], cmp) && SortedBy(s[1..], cmp) {
      forall i, j | 0 <= i < j < |s| ensures cmp(s[i], s[j]) <= 0 {
        if i > 0 {
          assert s[i] == s[1..][i - 1] && s[j] == s[1..][j - 1];
        } else {
          assert s[j] == s[1..][j - 1];
        }
      }
    }
  }

  lemma {:induction false} InsertAllOk<T>(x: T, s: seq<T>, cmp: (T, T) -> int, ok: T -> bool)
    requires AllOk(s, ok) && ok(x)
    ensures AllOk(Insert(x, s, cmp), ok)
  {
    if s != [] && cmp(s[0], x) <= 0 {
      InsertAllOk(x, s[1..], cmp, ok);
    }
  }

  lemma {:induction false} InsertLowerBound<T>(y: T, x: T, s: seq<T>, cmp: (T, T) -> int)
    requires LowerBound(y, s, cmp) && cmp(y, x) <= 0
    ensures LowerBound(y, Insert(x, s, cmp), cmp)
  {
    if s != [] && cmp(s[0], x) <= 0 {
      InsertLowerBound(y, x, s[1..], cmp);
    }
  }

  lemma {:induction false} InsertSorted<T(!new)>(x: T, s: seq<T>, cmp: (T, T) -> int, ok: T -> bool)
    requires PreorderOn(cmp, ok) && AllOk(s, ok) && ok(x)
    requires SortedBy(s, cmp)
    ensures SortedBy(Insert(x, s, cmp), cmp)
  {
    if s == [] {
    } else if cmp(s[0], x) > 0 {
      SortedCons(s, cmp);
      assert LowerBound(x, s, cmp) by {
        forall j | 0 <= j < |s| ensures cmp(x, s[j]) <= 0 {
          if j > 0 {
            assert s[j] == s[1..][j - 1];
          }
        }
      }
      assert ([x] + s)[1..] == s;
      SortedCons([x] + s, cmp);
    } else {
      var tail := s[1..];
      SortedCons(s, cmp);
      InsertSorted(x, tail, cmp, ok);
      InsertLowerBound(s[0], x, tail, cmp);
      var r := [s[0]] + Insert(x, tail, cmp);
      assert r[1..] == Insert(x, tail, cmp);
      SortedCons(r, cmp);
    }
  }

  /** Under a comparator that is a total preorder on the elements, the result is sorted. */
  lemma {:induction false} SortBySorted<T(!new)>(s: seq<T>, cmp: (T, T) -> int, ok: T -> bool)
    requires PreorderOn(cmp, ok) && AllOk(s, ok)
    ensures SortedBy(SortBy(s, cmp), cmp)
    ensures AllOk(SortBy(s, cmp), ok)
    decreases |s|
  {
    if s != [] {
      var init := s[..|s| - 1];
      SortBySorted(init, cmp, ok);
      InsertSorted(s[|s| - 1], SortBy(init, cmp), cmp, ok);
      InsertAllOk(s[|s| - 1], SortBy(init, cmp), cmp, ok);
    }
  }

  /** `cmp` orders by `key`, larger keys first: `(a, b) => key(b) - key(a)`. */
  ghost predicate DescendingBy<T(!new)>(cmp: (T, T) -> int, key: T -> int)
  {
    forall a, b :: cmp(a, b) == key(b) - key(a)
  }

  lemma {:induction false} InsertStable<T(!new)>(x: T, s: seq<T>, cmp: (T, T) -> int, key: T -> int, k: int, P: T -> bool)
    requires DescendingBy(cmp, key)
    requires forall y :: P(y) <==> key(y) == k
    requires SortedBy(s, cmp)
    ensures Filter(Insert(x, s, cmp), P) == Filter(s, P) + (if P(x) then [x] else [])
  {
    if s == [] {
      FilterSingle(x, P);
    } else if cmp(s[0], x) > 0 {
      InsertFrontStable(x, s, cmp, key, k, P);
    } else {
      var tail := s[1..];
      var h := if P(s[0]) then [s[0]] else [];
      SortedCons(s, cmp);
      InsertStable(x, tail, cmp, key, k, P);
      assert Insert(x, s, cmp) == [s[0]] + Insert(x, tail, cmp);
      FilterCons(s[0], Insert(x, tail, cmp), P);
      assert s == [s[0]] + tail;
      FilterCons(s[0], tail, P);
      AppendAssoc(h, Filter(tail, P), if P(x) then [x] else []);
    }
  }

  /** The case where `x` goes in front: an element that sorts after `x` has a smaller key,
      so when `x` has key `k` nothing in `s` does. */
  lemma InsertFrontStable<T(!new)>(x: T, s: seq<T>, cmp: (T, T) -> int, key: T -> int, k: int, P: T -> bool)
    requires DescendingBy(cmp, key)
    requires forall y :: P(y) <==> key(y) == k
    requires SortedBy(s, cmp)
    requires s != [] && cmp(s[0], x) > 0
    ensures Filter(Insert(x, s, cmp), P) == Filter(s, P) + (if P(x) then [x] else [])
  {
    assert Insert(x, s, cmp) == [x] + s;
    FilterCons(x, s, P);
    if P(x) {
      forall i | 0 <= i < |s| ensures !P(s[i]) {
        assert cmp(s[0], s[i]) <= 0 || i == 0;
      }
      NoneKept(s, P);
    } else {
      assert Filter(s, P) + [] == Filter(s, P);
    }
  }

  /** Stability: among elements with equal keys the sort keeps their input order. */
  lemma {:induction false} SortByStable<T(!new)>(s: seq<T>, cmp: (T, T) -> int, key: T -> int, k: int, P: T -> bool)
    requires DescendingBy(cmp, key)
    requires forall y :: P(y) <==> key(y) == k
    ensures Filter(SortBy(s, cmp), P) == Filter(s, P)
    decreases |s|
  {
    if s != [] {
      var init := s[..|s| - 1];
      var x := s[|s| - 1];
      SplitLast(s);
      SortByStable(init, cmp, key, k, P);
      assert PreorderOn(cmp, (y: T) => true);
      SortBySorted(init, cmp, (y: T) => true);
      InsertStable(x, SortBy(init, cmp), cmp, key, k, P);
      FilterAppend(init, [x], P);
      FilterSingle(x, P);
    }
  }

  /** Dropping elements from a sorted list leaves it sorted. */
  lemma {:induction false} FilterKeepsSorted<T(!new)>(s: seq<T>, p: T -> bool, cmp: (T, T) -> int)
    requires SortedBy(s, cmp)
    ensures SortedBy(Filter(s, p), cmp)
  {
    if s != [] {
      SortedCons(s, cmp);
      FilterKeepsSorted(s[1..], p, cmp);
      var rest := Filter(s[1..], p);
      if p(s[0]) {
        var r := [s[0]] + rest;
        assert r[1..] == rest;
        forall i | 0 <= i < |rest| ensures cmp(s[0], rest[i]) <= 0 {
          assert rest[i] in s[1..];
          var k :| 0 <= k < |s[1..]| && s[1..][k] == rest[i];
        }
        SortedCons(r, cmp);
      } else {
        assert Filter(s, p) == rest;
      }
    }
  }

  /** A prefix of a sorted list is sorted. */
  lemma PrefixSorted<T>(s: seq<T>, r: seq<T>, cmp: (T, T) -> int)
    requires SortedBy(s, cmp) && r <= s
    ensures SortedBy(r, cmp)
  {
    forall i, j | 0 <= i < j < |r| ensures cmp(r[i], r[j]) <= 0 {
      assert r[i] == s[i] && r[j] == s[j];
    }
  }

  /** `Insert` places `x` at the first position whose element compares greater than it: the
      elements before that position stay, and the rest move one place right. */
  lemma {:induction false} InsertAt<T>(x: T, p: seq<T>, j: nat, cmp: (T, T) -> int)
    requires j <= |p|
    requires forall k :: 0 <= k < j ==> cmp(p[k], x) <= 0
    requires j == |p| || cmp(p[j], x) > 0
    ensures forall k :: 0 <= k < j ==> Insert(x, p, cmp)[k] == p[k]
    ensures Insert(x, p, cmp)[j] == x
    ensures forall k :: j < k <= |p| ==> Insert(x, p, cmp)[k] == p[k - 1]
  {
    if j > 0 {
      var tail := p[1..];
      forall k | 0 <= k < j - 1 ensures cmp(tail[k], x) <= 0 {
        assert tail[k] == p[k + 1];
      }
      InsertAt(x, tail, j - 1, cmp);
      var r := Insert(x, p, cmp);
      var rt := Insert(x, tail, cmp);
      assert r == [p[0]] + rt;
      forall k | 0 < k <= |p| ensures r[k] == rt[k - 1] {
      }
    } else if p != [] {
      assert Insert(x, p, cmp) == [x] + p;
    }
  }

  /** Sorting the first `i + 1` elements inserts element `i` into the sorted first `i`. */
  lemma SortByStep<T>(s: seq<T>, i: nat, cmp: (T, T) -> int)
    requires i < |s|
    ensures SortBy(s[..i + 1], cmp) == Insert(s[i], SortBy(s[..i], cmp), cmp)
  {
    assert s[..i + 1][..i] == s[..i];
  }

  /** The first index below `i` whose element compares greater than `x`, or `i` when there
      is none. */
  method FirstGreater<T>(a: array<T>, i: nat, x: T, cmp: (T, T) -> int) returns (j: nat)
    requires i <= a.Length
    ensures j <= i
    ensures forall m :: 0 <= m < j ==> cmp(a[m], x) <= 0
    ensures j == i || cmp(a[j], x) > 0
  {
    j := 0;
    while j < i && cmp(a[j], x) <= 0
      invariant j <= i
      invariant forall m :: 0 <= m < j ==> cmp(a[m], x) <= 0
    {
      j := j + 1;
    }
  }

  /** Moves `a[j..i]` one place right, leaving `a[j]` as it was and everything outside
      `j..i` untouched. */
  method ShiftRight<T>(a: array<T>, j: nat, i: nat)
    requires j <= i < a.Length
    modifies a
    ensures forall m :: 0 <= m <= j ==> a[m] == old(a[m])
    ensures forall m :: j < m <= i ==> a[m] == old(a[m - 1])
    ensures forall m :: i < m < a.Length ==> a[m] == old(a[m])
  {
    var k := i;
    while k > j
      invariant j <= k <= i
      invariant forall m :: 0 <= m <= k ==> a[m] == old(a[m])
      invariant forall m :: k < m <= i ==> a[m] == old(a[m - 1])
      invariant forall m :: i < m < a.Length ==> a[m] == old(a[m])
    {
      a[k] := a[k - 1];
      k := k - 1;
    }
  }

  /** One pass of the insertion sort: inserts `a[i]` into `a[..i]` as `Insert` does. */
  method InsertInPlace<T>(a: array<T>, i: nat, cmp: (T, T) -> int)
    requires i < a.Length
    modifies a
    ensures a[..i + 1] == Insert(old(a[i]), old(a[..i]), cmp)
    ensures forall m :: i < m < a.Length ==> a[m] == old(a[m])
  {
    ghost var p := a[..i];
    var x := a[i];
    var j := FirstGreater(a, i, x, cmp);
    assert forall m :: 0 <= m < j ==> cmp(p[m], x) <= 0;
    ShiftRight(a, j, i);
    a[j] := x;
    InsertAt(x, p, j, cmp);
    ghost var r := Insert(x, p, cmp);
    forall m | 0 <= m <= i ensures a[m] == r[m] {
      if m < j {
        assert a[m] == p[m];
      } else if m > j {
        assert a[m] == p[m - 1];
      }
    }
    assert a[..i + 1] == r;
  }

  /** `a.sort(cmp)`: an insertion sort in place. Each pass finds the first position holding an
      element that compares greater than the next one and shifts the rest right, so the array
      ends up as the stable sort of its old contents. */
  method SortInPlace<T>(a: array<T>, cmp: (T, T) -> int)
    modifies a
    ensures a[..] == SortBy(old(a[..]), cmp)
  {
    ghost var s := a[..];
    for i := 0 to a.Length
      invariant a[..i] == SortBy(s[..i], cmp)
      invariant forall m :: i <= m < a.Length ==> a[m] == s[m]
    {
      InsertInPlace(a, i, cmp);
      SortByStep(s, i, cmp);
    }
    assert s[..a.Length] == s;
  }
}
