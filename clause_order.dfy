/** The numeric ordering of clause codes used by the clause listing route: codes are split on
    '.', each part is converted with `Number`, and the comparator looks at the major number,
    then the minor number, then the number of parts. The route sorts the fetched clause rows
    in place with it. */
module ClauseOrder {
  import opened Wrappers
  import opened Text
  import opened Seqs
  import opened Sorting
  import opened Records

  /** `Number(part)` for the parts a clause code splits into: surrounding white space is
      ignored, an empty part is 0, a run of decimal digits is its value, and anything else is
      NaN (`None`). */
  function NumberOf(part: string): (r: Option<int>)
    ensures r.Some? ==> r.value >= 0
  {
    var t := Trim(part);
    if forall i :: 0 <= i < |t| ==> IsDigit(t[i]) then Some(DigitsValue(t)) else None
  }

  /** `code.split('.').map(Number)`: never empty. */
  function Parts(code: string): (r: seq<Option<int>>)
    ensures |r| >= 1
  {
    var ps := Split(code, '.');
    seq(|ps|, i requires 0 <= i < |ps| => NumberOf(ps[i]))
  }

  /** `x - y` on numbers that may be NaN, with a NaN result read as 0, as `Array.prototype.sort`
      reads a comparator's NaN. */
  function Diff(x: Option<int>, y: Option<int>): int
  {
    if x.Some? && y.Some? then x.value - y.value else 0
  }

  /** The comparator: a negative result puts `a` first. A NaN major compares unequal to
      everything, so its subtraction yields NaN, read as 0. */
  function CompareParts(ap: seq<Option<int>>, bp: seq<Option<int>>): int
    requires |ap| >= 1 && |bp| >= 1
  {
    if ap[0] != bp[0] || ap[0].None? then Diff(ap[0], bp[0])
    else if |ap| >= 2 && |bp| >= 2 then Diff(ap[1], bp[1])
    else |ap| - |bp|
  }

  function CompareCodes(a: string, b: string): int
  {
    CompareParts(Parts(a), Parts(b))
  }

  function CompareClauses(a: Clause, b: Clause): int
  {
    CompareCodes(a.code, b.code)
  }

  /** Parts whose major number, and minor number when there is one, are numbers. */
  predicate WellFormed(p: seq<Option<int>>)
  {
    |p| >= 1 && p[0].Some? && (|p| >= 2 ==> p[1].Some? && p[1].value >= 0)
  }

  predicate WellFormedClause(c: Clause)
  {
    WellFormed(Parts(c.code))
  }

  /** The minor number, or -1 for parts without one, so that it sorts before any minor. */
  function MinorKey(p: seq<Option<int>>): int
    requires WellFormed(p)
  {
    if |p| >= 2 then p[1].value else -1
  }

  /** (major, minor) of `p` is lexicographically below, or equal to, that of `q`. */
  predicate LexLess(p: seq<Option<int>>, q: seq<Option<int>>)
    requires WellFormed(p) && WellFormed(q)
  {
    p[0].value < q[0].value || (p[0].value == q[0].value && MinorKey(p) < MinorKey(q))
  }

  /** On well-formed parts the comparator is the lexicographic order of (major, minor), parts
      without a minor coming first among equal majors. */
  lemma CompareIsLexicographic(p: seq<Option<int>>, q: seq<Option<int>>)
    requires WellFormed(p) && WellFormed(q)
    ensures CompareParts(p, q) < 0 <==> LexLess(p, q)
    ensures CompareParts(p, q) == 0 <==> p[0] == q[0] && MinorKey(p) == MinorKey(q)
  {
  }

  /** Different majors: the major numbers decide. */
  lemma MajorFirst(p: seq<Option<int>>, q: seq<Option<int>>)
    requires |p| >= 1 && |q| >= 1 && p[0].Some? && q[0].Some? && p[0] != q[0]
    ensures CompareParts(p, q) == p[0].value - q[0].value
  {
  }

  /** Equal majors and both minors present: the minors decide, whatever else follows. */
  lemma MinorNext(p: seq<Option<int>>, q: seq<Option<int>>)
    requires |p| >= 2 && |q| >= 2 && p[0].Some? && p[0] == q[0]
    ensures CompareParts(p, q) == Diff(p[1], q[1])
  {
  }

  /** Equal majors, `p` without a minor and `q` with one: `p` goes first. */
  lemma MissingMinorFirst(p: seq<Option<int>>, q: seq<Option<int>>)
    requires |p| == 1 && |q| >= 2 && p[0].Some? && p[0] == q[0]
    ensures CompareParts(p, q) < 0 && CompareParts(q, p) > 0
  {
  }

  /** Parts agreeing on their first two numbers compare equal: a third component is ignored. */
  lemma ThirdIgnored(p: seq<Option<int>>, q: seq<Option<int>>)
    requires |p| >= 2 && |q| >= 2 && p[0].Some? && p[0] == q[0] && p[1] == q[1]
    ensures CompareParts(p, q) == 0
  {
  }

  /** A NaN major makes the comparator report a tie with anything. */
  lemma NaNMajorTies(p: seq<Option<int>>, q: seq<Option<int>>)
    requires |p| >= 1 && |q| >= 1 && (p[0].None? || q[0].None?)
    ensures CompareParts(p, q) == 0
  {
  }

  /** `Split` of a code `<major>.<minor>` whose parts contain no dot. */
  lemma SplitTwo(major: string, minor: string)
    requires '.' !in major && '.' !in minor
    ensures Split(major + "." + minor, '.') == [major, minor]
  {
    SplitJoin([major, minor], '.');
    assert Join([major, minor], ".") == major + "." + Join([minor], ".");
  }

  /** A digit-only string with no white space is its own trim and converts to its value. */
  lemma NumberOfDigits(d: string)
    requires d != [] && forall i :: 0 <= i < |d| ==> IsDigit(d[i])
    ensures NumberOf(d) == Some(DigitsValue(d))
  {
    TrimStartKeeps(d, "");
    assert d + "" == d;
    assert !IsSpace(d[|d| - 1]);
  }

  /** The parts of a two-number code. */
  lemma PartsOfTwo(major: string, minor: string)
    requires major != [] && forall i :: 0 <= i < |major| ==> IsDigit(major[i])
    requires minor != [] && forall i :: 0 <= i < |minor| ==> IsDigit(minor[i])
    ensures Parts(major + "." + minor) == [Some(DigitsValue(major)), Some(DigitsValue(minor))]
  {
    assert '.' !in major;
    assert '.' !in minor;
    SplitTwo(major, minor);
    NumberOfDigits(major);
    NumberOfDigits(minor);
  }

  /** A code made of digits, a dot at position `k`, and digits. */
  lemma PartsAtDot(code: string, k: nat)
    requires 0 < k < |code| - 1 && code[k] == '.'
    requires forall i :: 0 <= i < |code| && i != k ==> IsDigit(code[i])
    ensures Parts(code) == [Some(DigitsValue(code[..k])), Some(DigitsValue(code[k + 1..]))]
  {
    var major := code[..k];
    var minor := code[k + 1..];
    assert forall i :: 0 <= i < |major| ==> IsDigit(major[i]) by {
      forall i | 0 <= i < |major| ensures IsDigit(major[i]) {
        assert major[i] == code[i];
      }
    }
    assert forall i :: 0 <= i < |minor| ==> IsDigit(minor[i]) by {
      forall i | 0 <= i < |minor| ensures IsDigit(minor[i]) {
        assert minor[i] == code[k + 1 + i];
      }
    }
    assert code == major + "." + minor;
    PartsOfTwo(major, minor);
  }

  lemma PartsOf41()
    ensures Parts("4.1") == [Some(4), Some(1)]
  {
    PartsAtDot("4.1", 1);
    assert DigitsValue("4.1"[..1]) == 4;
    assert DigitsValue("4.1"[2..]) == 1;
  }

  lemma PartsOf42()
    ensures Parts("4.2") == [Some(4), Some(2)]
  {
    PartsAtDot("4.2", 1);
    assert DigitsValue("4.2"[..1]) == 4;
    assert DigitsValue("4.2"[2..]) == 2;
  }

  lemma PartsOf101()
    ensures Parts("10.1") == [Some(10), Some(1)]
  {
    PartsAtDot("10.1", 2);
    assert DigitsValue("10.1"[..2]) == 10;
    assert DigitsValue("10.1"[3..]) == 1;
  }

  lemma PartsOf102()
    ensures Parts("10.2") == [Some(10), Some(2)]
  {
    PartsAtDot("10.2", 2);
    assert DigitsValue("10.2"[..2]) == 10;
    assert DigitsValue("10.2"[3..]) == 2;
  }

  /** Numeric rather than string order: 4.1 < 4.2 < 10.1 < 10.2, although "10.1" < "4.1" as
      strings. */
  lemma MinorOrderExample()
    ensures CompareCodes("4.1", "4.2") < 0
  {
    PartsOf41();
    PartsOf42();
  }

  lemma MajorOrderExample()
    ensures CompareCodes("4.2", "10.1") < 0
  {
    PartsOf42();
    PartsOf101();
  }

  lemma TwoDigitMajorExample()
    ensures CompareCodes("10.1", "10.2") < 0
  {
    PartsOf101();
    PartsOf102();
  }

  /** On well-formed clauses the comparator is a total preorder. */
  lemma ComparePreorder()
    ensures PreorderOn(CompareClauses, WellFormedClause)
  {
    forall a: Clause, b: Clause | WellFormedClause(a) && WellFormedClause(b)
      ensures CompareClauses(a, b) <= 0 || CompareClauses(b, a) <= 0
    {
      CompareTotal(Parts(a.code), Parts(b.code));
    }
    forall a: Clause, b: Clause, c: Clause |
      WellFormedClause(a) && WellFormedClause(b) && WellFormedClause(c)
      && CompareClauses(a, b) <= 0 && CompareClauses(b, c) <= 0
      ensures CompareClauses(a, c) <= 0
    {
      CompareTransitive(Parts(a.code), Parts(b.code), Parts(c.code));
    }
  }

  lemma CompareTotal(p: seq<Option<int>>, q: seq<Option<int>>)
    requires WellFormed(p) && WellFormed(q)
    ensures CompareParts(p, q) <= 0 || CompareParts(q, p) <= 0
  {
    CompareIsLexicographic(p, q);
    CompareIsLexicographic(q, p);
  }

  lemma CompareTransitive(p: seq<Option<int>>, q: seq<Option<int>>, o: seq<Option<int>>)
    requires WellFormed(p) && WellFormed(q) && WellFormed(o)
    requires CompareParts(p, q) <= 0 && CompareParts(q, o) <= 0
    ensures CompareParts(p, o) <= 0
  {
    CompareIsLexicographic(p, q);
    CompareIsLexicographic(q, o);
    CompareIsLexicographic(p, o);
  }

  /** `clauses.sort(compare)` with the numeric comparator, in place. */
  method SortClauses(a: array<Clause>)
    modifies a
    ensures a[..] == SortBy(old(a[..]), CompareClauses)
  {
    SortInPlace(a, CompareClauses);
  }

  /** The sorted clauses are a permutation of the fetched ones and, when every code is
      well formed, in non-decreasing (major, minor) order. */
  lemma SortedClauses(s: seq<Clause>)
    ensures multiset(SortBy(s, CompareClauses)) == multiset(s)
    ensures (forall i :: 0 <= i < |s| ==> WellFormedClause(s[i])) ==>
      forall i, j :: 0 <= i < j < |s| ==>
        var r := SortBy(s, CompareClauses);
        WellFormedClause(r[i]) && WellFormedClause(r[j]) && !LexLess(Parts(r[j].code), Parts(r[i].code))
  {
    if forall i :: 0 <= i < |s| ==> WellFormedClause(s[i]) {
      var r := SortBy(s, CompareClauses);
      SortedWellFormed(s);
      forall i, j | 0 <= i < j < |s|
        ensures WellFormedClause(r[i]) && WellFormedClause(r[j])
        ensures !LexLess(Parts(r[j].code), Parts(r[i].code))
      {
        OrderedPair(r[i], r[j]);
      }
    }
  }

  /** Sorting well-formed clauses gives well-formed clauses in comparator order. */
  lemma SortedWellFormed(s: seq<Clause>)
    requires forall i :: 0 <= i < |s| ==> WellFormedClause(s[i])
    ensures |SortBy(s, CompareClauses)| == |s|
    ensures forall i :: 0 <= i < |s| ==> WellFormedClause(SortBy(s, CompareClauses)[i])
    ensures forall i, j :: 0 <= i < j < |s| ==>
      CompareClauses(SortBy(s, CompareClauses)[i], SortBy(s, CompareClauses)[j]) <= 0
  {
    ComparePreorder();
    SortBySorted(s, CompareClauses, WellFormedClause);
  }

  /** Two well-formed clauses the comparator puts in order are not in reverse (major, minor)
      order. */
  lemma OrderedPair(a: Clause, b: Clause)
    requires WellFormedClause(a) && WellFormedClause(b) && CompareClauses(a, b) <= 0
    ensures !LexLess(Parts(b.code), Parts(a.code))
  {
    CompareIsLexicographic(Parts(a.code), Parts(b.code));
  }
}
