/** Sequence helpers: the `filter` and sub-list vocabulary the model is stated in. */
module Seqs {

  /** The elements of `s` that satisfy `p`, in their original order (Array.prototype.filter). */
  function Filter<T(!new)>(s: seq<T>, p: T -> bool): (r: seq<T>)
    ensures |r| <= |s|
    ensures forall x :: x in r <==> x in s && p(x)
    ensures forall i :: 0 <= i < |r| ==> p(r[i])
  {
    if s == [] then [] else (if p(s[0]) then [s[0]] else []) + Filter(s[1..], p)
  }

  /** Filtering distributes over concatenation. */
  lemma {:induction false} FilterAppend<T(!new)>(a: seq<T>, b: seq<T>, p: T -> bool)
    ensures Filter(a + b, p) == Filter(a, p) + Filter(b, p)
  {
    if a == [] {
      assert a + b == b;
    } else {
      assert (a + b)[1..] == a[1..] + b;
      FilterAppend(a[1..], b, p);
    }
  }

  /** `a` is obtained from `b` by deleting elements, without reordering. */
  predicate IsSubsequence<T(==)>(a: seq<T>, b: seq<T>)
    decreases |b|
  {
    if a == [] then true
    else if b == [] then false
    else if a[0] == b[0] then IsSubsequence(a[1..], b[1..])
    else IsSubsequence(a, b[1..])
  }

  /** The result of a filter is an order-preserving sub-list of its input. */
  lemma {:induction false} FilterIsSubsequence<T(!new)>(s: seq<T>, p: T -> bool)
    ensures IsSubsequence(Filter(s, p), s)
  {
    if s != [] {
      FilterIsSubsequence(s[1..], p);
      var r := Filter(s[1..], p);
      if p(s[0]) {
        assert Filter(s, p) == [s[0]] + r;
        assert (Filter(s, p))[1..] == r;
      } else {
        assert Filter(s, p) == r;
        SubsequenceSkip(r, s);
      }
    }
  }

  /** Dropping the head of `b` never hurts when `a` was already a sub-list of `b[1..]`. */
  lemma {:induction false} SubsequenceSkip<T>(a: seq<T>, b: seq<T>)
    requires b != [] && IsSubsequence(a, b[1..])
    ensures IsSubsequence(a, b)
    decreases |b|, 0
  {
    if a != [] && a[0] == b[0] {
      if |b| > 1 {
        SubsequenceTail(a, b[1..]);
      } else {
        assert false;
      }
    }
  }

  lemma {:induction false} SubsequenceTail<T>(a: seq<T>, b: seq<T>)
    requires a != [] && IsSubsequence(a, b)
    ensures IsSubsequence(a[1..], b)
    decreases |b|, 1
  {
    if a[0] == b[0] {
      if a[1..] != [] {
        SubsequenceSkip(a[1..], b);
      }
    } else {
      SubsequenceTail(a, b[1..]);
      if a[1..] != [] {
        SubsequenceSkip(a[1..], b);
      }
    }
  }

  /** The first `n` elements, or all of them when there are fewer (Array.prototype.slice(0, n)). */
  function Take<T>(s: seq<T>, n: nat): (r: seq<T>)
    ensures |r| == if n < |s| then n else |s|
    ensures r <= s
  {
    if n < |s| then s[..n] else s
  }

  /** `s.map(f)`, built from the front as a loop that pushes would build it. */
  function MapSeq<A, B>(s: seq<A>, f: A -> B): (r: seq<B>)
    ensures |r| == |s|
    ensures forall i :: 0 <= i < |s| ==> r[i] == f(s[i])
  {
    if s == [] then [] else MapSeq(s[..|s| - 1], f) + [f(s[|s| - 1])]
  }

  /** A non-empty list is its front followed by its last element. */
  lemma SplitLast<T>(s: seq<T>)
    requires s != []
    ensures s == s[..|s| - 1] + [s[|s| - 1]]
  {
  }

  /** The first `i + 1` elements are the first `i` followed by element `i`. */
  lemma TakeStep<T>(s: seq<T>, i: nat)
    requires i < |s|
    ensures s[..i + 1][..i] == s[..i]
    ensures s[..i + 1][i] == s[i]
    ensures s[..i + 1] == s[..i] + [s[i]]
  {
  }

  lemma AppendAssoc<T>(a: seq<T>, b: seq<T>, c: seq<T>)
    ensures (a + b) + c == a + (b + c)
  {
  }

  /** Extending the input of a map by one element extends its output by that element's image. */
  lemma MapSeqSnoc<A, B>(s: seq<A>, f: A -> B, i: nat)
    requires i < |s|
    ensures MapSeq(s[..i + 1], f) == MapSeq(s[..i], f) + [f(s[i])]
  {
    assert s[..i + 1][..i] == s[..i];
  }

  /** Filtering a one-element list keeps it or drops it. */
  lemma FilterSingle<T(!new)>(x: T, p: T -> bool)
    ensures Filter([x], p) == if p(x) then [x] else []
  {
    assert [x][1..] == [];
  }

  /** Filtering a list with a known head. */
  lemma FilterCons<T(!new)>(x: T, s: seq<T>, p: T -> bool)
    ensures Filter([x] + s, p) == (if p(x) then [x] else []) + Filter(s, p)
  {
    assert ([x] + s)[1..] == s;
    assert ([x] + s)[0] == x;
  }

  /** `s` after a loop that pushes `f(x)` for each `x` of `xs` satisfying `p`, in order. */
  function PushAllIf<A, B>(s: seq<B>, xs: seq<A>, p: A -> bool, f: A -> B): seq<B>
  {
    if xs == [] then s
    else
      var last := xs[|xs| - 1];
      PushAllIf(s, xs[..|xs| - 1], p, f) + (if p(last) then [f(last)] else [])
  }

  /** One more iteration of the pushing loop. */
  lemma PushAllIfStep<A, B>(s: seq<B>, xs: seq<A>, p: A -> bool, f: A -> B, i: nat)
    requires i < |xs|
    ensures PushAllIf(s, xs[..i + 1], p, f) == PushAllIf(s, xs[..i], p, f) + (if p(xs[i]) then [f(xs[i])] else [])
  {
    assert xs[..i + 1][..i] == xs[..i];
  }

  lemma MapSeqAppendOne<A, B>(a: seq<A>, x: A, f: A -> B)
    ensures MapSeq(a + [x], f) == MapSeq(a, f) + [f(x)]
  {
    assert (a + [x])[..|a|] == a;
  }

  /** The pushing loop appends the images of the elements the filter keeps. */
  lemma {:induction false} PushAllIfIsAppend<A(!new), B>(s: seq<B>, xs: seq<A>, p: A -> bool, f: A -> B)
    ensures PushAllIf(s, xs, p, f) == s + MapSeq(Filter(xs, p), f)
  {
    if xs == [] {
      assert s + [] == s;
    } else {
      var init := xs[..|xs| - 1];
      var last := xs[|xs| - 1];
      var kept := Filter(init, p);
      PushAllIfIsAppend(s, init, p, f);
      SplitLast(xs);
      FilterAppend(init, [last], p);
      FilterSingle(last, p);
      if p(last) {
        assert Filter(xs, p) == kept + [last];
        MapSeqAppendOne(kept, last, f);
        AppendAssoc(s, MapSeq(kept, f), [f(last)]);
      } else {
        assert Filter(xs, p) == kept + [];
        assert kept + [] == kept;
        assert PushAllIf(s, xs, p, f) == PushAllIf(s, init, p, f) + [];
      }
    }
  }

  /** A filter that keeps every element is the identity. */
  lemma {:induction false} AllKept<T(!new)>(s: seq<T>, p: T -> bool)
    requires forall i :: 0 <= i < |s| ==> p(s[i])
    ensures Filter(s, p) == s
  {
    if s != [] {
      AllKept(s[1..], p);
    }
  }

  /** A filter that keeps no element gives the empty list. */
  lemma NoneKept<T(!new)>(s: seq<T>, p: T -> bool)
    requires forall i :: 0 <= i < |s| ==> !p(s[i])
    ensures Filter(s, p) == []
  {
  }

  /** A filter and its complement share out the elements. */
  lemma {:induction false} FilterComplement<T(!new)>(s: seq<T>, p: T -> bool, q: T -> bool)
    requires forall x :: q(x) == !p(x)
    ensures |Filter(s, p)| + |Filter(s, q)| == |s|
  {
    if s != [] {
      FilterComplement(s[1..], p, q);
    }
  }

  /** Filtering twice is filtering once with both conditions. */
  lemma {:induction false} FilterFilter<T(!new)>(s: seq<T>, p: T -> bool, q: T -> bool, both: T -> bool)
    requires forall x :: both(x) == (p(x) && q(x))
    ensures Filter(Filter(s, p), q) == Filter(s, both)
  {
    if s != [] {
      FilterFilter(s[1..], p, q, both);
      var head := if p(s[0]) then [s[0]] else [];
      FilterAppend(head, Filter(s[1..], p), q);
      if p(s[0]) {
        FilterSingle(s[0], q);
      }
    }
  }

  /** A sequence is its three consecutive slices put back together. */
  lemma ThreeSlices<T>(s: seq<T>, i: nat, j: nat)
    requires i <= j <= |s|
    ensures s[..i] + (s[i..j] + s[j..]) == s
  {
  }
}
