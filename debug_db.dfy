/** The database diagnostics route: it reports the configured connection URL with its password
    hidden, and whether the URL looks local or like a hosted production database. */
module DebugDb {
  import opened Wrappers
  import opened Seqs
  import opened Text

  const NotSet := "NOT SET"
  const Mask := ":****@"

  /** The first index from `m` on that holds `:` or `@`, or `|s|` when there is none. */
  function StopAt(s: string, m: nat): (r: nat)
    requires m <= |s|
    ensures m <= r <= |s|
    ensures forall x :: m <= x < r ==> s[x] != ':' && s[x] != '@'
    ensures r < |s| ==> s[r] == ':' || s[r] == '@'
    decreases |s| - m
  {
    if m == |s| || s[m] == ':' || s[m] == '@' then m else StopAt(s, m + 1)
  }

  /** `/:([^:@]+)@/` matches at `i`, with its `@` at `k`: a colon, at least one character that
      is neither a colon nor an at sign, then an at sign. */
  predicate MatchAt(s: string, i: int, k: int)
  {
    0 <= i && i + 1 < k < |s| && s[i] == ':' && s[k] == '@'
    && forall x :: i < x < k ==> s[x] != ':' && s[x] != '@'
  }

  /** The position of the `@` closing a match at the start of `s`, or -1. */
  function MatchEnd(s: string): (r: int)
    requires s != [] && s[0] == ':'
    ensures r >= 0 <==> exists k :: MatchAt(s, 0, k)
    ensures r >= 0 ==> MatchAt(s, 0, r)
  {
    var k := StopAt(s, 1);
    if k < |s| && s[k] == '@' && k > 1 then
      assert MatchAt(s, 0, k);
      k
    else
      assert forall k' :: MatchAt(s, 0, k') ==> k' == k;
      -1
  }

  /** `url.replace(/:([^:@]+)@/, ':****@')`: the leftmost match only is replaced. */
  function MaskPassword(s: string): (r: string)
  {
    if s == [] then s
    else if s[0] == ':' && MatchEnd(s) >= 0 then Mask + s[MatchEnd(s) + 1..]
    else [s[0]] + MaskPassword(s[1..])
  }

  /** A string without a match is left as it is. */
  lemma {:induction false} NoMatchUnchanged(s: string)
    requires forall i, k :: !MatchAt(s, i, k)
    ensures MaskPassword(s) == s
  {
    if s != [] {
      forall i, k ensures !MatchAt(s[1..], i, k) {
        if MatchAt(s[1..], i, k) {
          assert MatchAt(s, i + 1, k + 1);
        }
      }
      NoMatchUnchanged(s[1..]);
    }
  }

  /** With the leftmost match at `i` closed at `k`, the colon, the password and the at sign are
      replaced by `:****@` and the rest is kept. */
  lemma {:induction false} LeftmostMatchMasked(s: string, i: nat, k: nat)
    requires MatchAt(s, i, k)
    requires forall i', k' :: i' < i ==> !MatchAt(s, i', k')
    ensures MaskPassword(s) == s[..i] + Mask + s[k + 1..]
  {
    if i == 0 {
      MaskAtStart(s, k);
      assert s[..0] + Mask == Mask;
    } else {
      var t := s[1..];
      NoMatchBeforeShifts(s, i);
      assert MatchAt(t, i - 1, k - 1);
      LeftmostMatchMasked(t, i - 1, k - 1);
      MaskPastStart(s);
      assert t[..i - 1] == s[1..i];
      assert t[k - 1 + 1..] == s[k + 1..];
      assert [s[0]] + s[1..i] == s[..i];
      AppendAssoc([s[0]], s[1..i] + Mask, s[k + 1..]);
    }
  }

  /** A match at the start is replaced. */
  lemma MaskAtStart(s: string, k: nat)
    requires MatchAt(s, 0, k)
    ensures MaskPassword(s) == Mask + s[k + 1..]
  {
    assert StopAt(s, 1) == k;
  }

  /** Without a match at the start, the first character is kept and the rest is masked. */
  lemma MaskPastStart(s: string)
    requires s != [] && forall k :: !MatchAt(s, 0, k)
    ensures MaskPassword(s) == [s[0]] + MaskPassword(s[1..])
  {
  }

  /** No match before `i` in `s` means none before `i - 1` in its tail, and none at 0. */
  lemma NoMatchBeforeShifts(s: string, i: nat)
    requires s != [] && i > 0
    requires forall i', k' :: i' < i ==> !MatchAt(s, i', k')
    ensures forall i', k' :: i' < i - 1 ==> !MatchAt(s[1..], i', k')
    ensures forall k :: !MatchAt(s, 0, k)
  {
    forall i', k' | i' < i - 1 ensures !MatchAt(s[1..], i', k') {
      if MatchAt(s[1..], i', k') {
        assert MatchAt(s, i' + 1, k' + 1);
      }
    }
  }

  /** Every string with a match has a leftmost one, so the two lemmas above cover every string. */
  lemma LeftmostMatchExists(s: string, i: nat, k: nat)
    requires MatchAt(s, i, k)
    ensures exists i0, k0 :: MatchAt(s, i0, k0) && forall i', k' :: i' < i0 ==> !MatchAt(s, i', k')
    decreases i
  {
    if exists i', k' :: i' < i && MatchAt(s, i', k') {
      var i', k' :| i' < i && MatchAt(s, i', k');
      LeftmostMatchExists(s, i', k');
    }
  }

  /** Masking twice is masking once: `:****@` is itself the leftmost match afterwards. */
  lemma {:induction false} MaskIdempotent(s: string)
    ensures MaskPassword(MaskPassword(s)) == MaskPassword(s)
  {
    if s != [] {
      if s[0] == ':' && MatchEnd(s) >= 0 {
        var rest := s[MatchEnd(s) + 1..];
        var m := Mask + rest;
        assert MatchAt(m, 0, 5);
        LeftmostMatchMasked(m, 0, 5);
        assert m[..0] + Mask + m[6..] == m;
      } else {
        MaskIdempotent(s[1..]);
        var tail := MaskPassword(s[1..]);
        var m := [s[0]] + tail;
        assert m[1..] == tail;
        if s[0] == ':' {
          NoMatchAfterMask(s);
          assert MaskPassword(m) == [s[0]] + MaskPassword(tail);
        } else {
          assert MaskPassword(m) == [s[0]] + MaskPassword(tail);
        }
      }
    }
  }

  /** A colon at the start that does not open a match still does not once the rest is masked:
      masking the rest keeps everything up to the first colon or at sign after the start. */
  lemma NoMatchAfterMask(s: string)
    requires s != [] && s[0] == ':' && MatchEnd(s) < 0
    ensures var m := [s[0]] + MaskPassword(s[1..]); MatchEnd(m) < 0
  {
    var k := StopAt(s, 1);
    var t := s[1..];
    var m := [s[0]] + MaskPassword(t);
    MaskKeepsUpToColon(t, k - 1);
    if k < |s| {
      PrefixKept(s, t, m, k);
      SamePrefixSameStop(s, m, k);
    } else {
      assert m == s;
    }
  }

  /** The first character and the masked rest agree with `s` up to index `k`. */
  lemma PrefixKept(s: string, t: string, m: string, k: nat)
    requires s != [] && t == s[1..] && m == [s[0]] + MaskPassword(t)
    requires 1 <= k < |s|
    requires |MaskPassword(t)| > k - 1 && MaskPassword(t)[..k] == t[..k]
    ensures |m| > k && forall x :: 0 <= x <= k ==> m[x] == s[x]
  {
    forall x | 0 <= x <= k ensures m[x] == s[x] {
      if x > 0 {
        assert m[x] == MaskPassword(t)[..k][x - 1];
        assert s[x] == t[..k][x - 1];
      }
    }
  }

  /** Two strings opening with the same colon and agreeing up to the first stop of one stop
      there both, on the same character. */
  lemma SamePrefixSameStop(s: string, m: string, k: nat)
    requires s != [] && s[0] == ':' && k == StopAt(s, 1) && k < |s|
    requires |m| > k && forall x :: 0 <= x <= k ==> m[x] == s[x]
    ensures StopAt(m, 1) == k && m[k] == s[k] && m[0] == ':'
  {
  }

  /** Masking leaves alone every character up to and including the first colon of `t`, when
      no colon comes before index `j`; a string without any colon is left whole. */
  lemma {:induction false} MaskKeepsUpToColon(t: string, j: nat)
    requires j <= |t|
    requires forall x :: 0 <= x < j ==> t[x] != ':'
    ensures j < |t| ==> |MaskPassword(t)| > j && MaskPassword(t)[..j + 1] == t[..j + 1]
    ensures j == |t| ==> MaskPassword(t) == t
  {
    if t != [] {
      if exists k :: MatchAt(t, 0, k) {
        var k :| MatchAt(t, 0, k);
        MaskAtStart(t, k);
        assert j == 0;
        assert (Mask + t[k + 1..])[0] == ':';
      } else {
        var rest := MaskPassword(t[1..]);
        MaskPastStart(t);
        if j > 0 {
          MaskKeepsUpToColon(t[1..], j - 1);
          if j < |t| {
            assert ([t[0]] + rest)[..j + 1] == [t[0]] + rest[..j];
            assert t[..j + 1] == [t[0]] + t[1..][..j];
          } else {
            assert t == [t[0]] + t[1..];
          }
        }
      }
    }
  }

  /** A string without a colon is left as it is. */
  lemma NoColonUnchanged(s: string)
    requires ':' !in s
    ensures MaskPassword(s) == s
  {
    MaskKeepsUpToColon(s, |s|);
  }

  /** What the route reports. */
  datatype DebugReport = DebugReport(databaseUrl: string, isLocal: bool, isProduction: bool)

  /** The route's response for a configured value of `DATABASE_URL`: absent and empty both
      read as `NOT SET`, and the tests look at the URL before masking. */
  function Report(env: Option<string>): (r: DebugReport)
    ensures var url := OrElse(env, NotSet);
      && r.databaseUrl == MaskPassword(url)
      && (r.isLocal <==> exists i :: OccursAt(url, "localhost", i) || OccursAt(url, "127.0.0.1", i))
      && (r.isProduction <==> exists i ::
            OccursAt(url, "prisma.io", i) || OccursAt(url, "vercel", i) || OccursAt(url, "accelerate", i))
  {
    var url := OrElse(env, NotSet);
    ContainsIff(url, "localhost");
    ContainsIff(url, "127.0.0.1");
    ContainsIff(url, "prisma.io");
    ContainsIff(url, "vercel");
    ContainsIff(url, "accelerate");
    DebugReport(
      MaskPassword(url),
      Contains(url, "localhost") || Contains(url, "127.0.0.1"),
      Contains(url, "prisma.io") || Contains(url, "vercel") || Contains(url, "accelerate"))
  }

  /** A missing URL is reported as `NOT SET`, neither local nor production. */
  lemma UnsetReport()
    ensures Report(None) == DebugReport(NotSet, false, false)
  {
    UnsetNotMasked();
    UnsetNotLocal();
    UnsetNotProduction();
  }

  lemma UnsetNotMasked()
    ensures MaskPassword(NotSet) == NotSet
  {
    assert ':' !in NotSet;
    NoColonUnchanged(NotSet);
  }

  lemma UnsetNotLocal()
    ensures !Contains(NotSet, "localhost") && !Contains(NotSet, "127.0.0.1")
  {
    MissingCharNotContained(NotSet, "localhost", 'l');
    MissingCharNotContained(NotSet, "127.0.0.1", '1');
  }

  lemma UnsetNotProduction()
    ensures !Contains(NotSet, "prisma.io") && !Contains(NotSet, "vercel") && !Contains(NotSet, "accelerate")
  {
    MissingCharNotContained(NotSet, "prisma.io", 'p');
    MissingCharNotContained(NotSet, "vercel", 'v');
    MissingCharNotContained(NotSet, "accelerate", 'a');
  }

  /** A user and password before a host: `u:p@h` is reported as `u:****@h`. */
  lemma MaskExample()
    ensures MaskPassword("u:p@h") == "u:****@h"
  {
    var s := "u:p@h";
    assert MatchAt(s, 1, 3);
    assert !MatchAt(s, 0, 0);
    LeftmostMatchMasked(s, 1, 3);
    assert s[..1] == "u";
    assert s[4..] == "h";
  }
}
