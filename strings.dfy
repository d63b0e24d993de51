/** The Foundation string operations the parser relies on, on `seq<char>`:
    `filter`, `replacingOccurrences(of:with:)` with a one-character pattern and
    an empty replacement, `contains(_:)` and `components(separatedBy:)` with a
    one-character separator. */
module Strings {

  /** The elements of `s` that satisfy `p`, in their original order (Swift's
      `filter`). Defined on the last element, the way an appending loop builds it. */
  function Filter<T>(s: seq<T>, p: T -> bool): (r: seq<T>)
    ensures |r| <= |s|
    decreases |s|
  {
    if |s| == 0 then []
    else Filter(s[..|s| - 1], p) + (if p(s[|s| - 1]) then [s[|s| - 1]] else [])
  }

  /** Filtering a concatenation filters each part: the kept elements keep their order. */
  lemma {:induction false} FilterConcat<T>(a: seq<T>, b: seq<T>, p: T -> bool)
    ensures Filter(a + b, p) == Filter(a, p) + Filter(b, p)
    decreases |b|
  {
    if |b| == 0 {
      assert a + b == a;
    } else {
      var b' := b[..|b| - 1];
      assert (a + b)[..|a + b| - 1] == a + b';
      FilterConcat(a, b', p);
    }
  }

  /** An element is kept exactly when it occurs in the input and satisfies `p`. */
  lemma {:induction false} FilterMember<T>(s: seq<T>, p: T -> bool, x: T)
    ensures x in Filter(s, p) <==> x in s && p(x)
    decreases |s|
  {
    if |s| != 0 {
      var s' := s[..|s| - 1];
      FilterMember(s', p, x);
      assert s == s' + [s[|s| - 1]];
    }
  }

  /** A sequence whose every element satisfies `p` is left as it is. */
  lemma {:induction false} FilterKeepsAll<T>(s: seq<T>, p: T -> bool)
    requires forall i :: 0 <= i < |s| ==> p(s[i])
    ensures Filter(s, p) == s
    decreases |s|
  {
    if |s| != 0 {
      FilterKeepsAll(s[..|s| - 1], p);
    }
  }

  /** Every element of the result satisfies `p`. */
  lemma {:induction false} FilterSatisfies<T>(s: seq<T>, p: T -> bool)
    ensures forall i :: 0 <= i < |Filter(s, p)| ==> p(Filter(s, p)[i])
    decreases |s|
  {
    if |s| != 0 {
      FilterSatisfies(s[..|s| - 1], p);
    }
  }

  /** Filtering twice with the same predicate changes nothing. */
  lemma FilterIdempotent<T>(s: seq<T>, p: T -> bool)
    ensures Filter(Filter(s, p), p) == Filter(s, p)
  {
    FilterSatisfies(s, p);
    FilterKeepsAll(Filter(s, p), p);
  }

  /** The character predicate "is not `c`". */
  function IsNot(c: char): char -> bool {
    (x: char) => x != c
  }

  /** `s.replacingOccurrences(of: String(c), with: "")`: every `c` removed. */
  function Strip(s: string, c: char): string {
    Filter(s, IsNot(c))
  }

  /** Removing `c` leaves no `c` behind and keeps every other character. */
  lemma StripMember(s: string, c: char, x: char)
    ensures x in Strip(s, c) <==> x in s && x != c
  {
    FilterMember(s, IsNot(c), x);
  }

  lemma StripConcat(a: string, b: string, c: char)
    ensures Strip(a + b, c) == Strip(a, c) + Strip(b, c)
  {
    FilterConcat(a, b, IsNot(c));
  }

  /** A string without `c` is unchanged by removing `c`. */
  lemma StripAbsent(s: string, c: char)
    requires c !in s
    ensures Strip(s, c) == s
  {
    FilterKeepsAll(s, IsNot(c));
  }

  /** `pat` occurs in `s` starting at index `i`. */
  ghost predicate OccursAt(s: string, pat: string, i: int) {
    0 <= i && i + |pat| <= |s| && s[i..i + |pat|] == pat
  }

  /** `s.contains(pat)`: some suffix of `s` starts with `pat`. */
  predicate Contains(s: string, pat: string)
    decreases |s|
  {
    |pat| <= |s| && (s[..|pat|] == pat || (|s| > 0 && Contains(s[1..], pat)))
  }

  /** `Contains` agrees with the definition by position. */
  lemma {:induction false} ContainsIff(s: string, pat: string)
    ensures Contains(s, pat) <==> exists i :: OccursAt(s, pat, i)
    decreases |s|
  {
    if |pat| <= |s| {
      if s[..|pat|] == pat {
        assert OccursAt(s, pat, 0);
      } else if |s| > 0 {
        ContainsIff(s[1..], pat);
        if Contains(s[1..], pat) {
          var i :| OccursAt(s[1..], pat, i);
          assert s[1..][i..i + |pat|] == s[i + 1..i + 1 + |pat|];
          assert OccursAt(s, pat, i + 1);
        }
        if exists i :: OccursAt(s, pat, i) {
          var i :| OccursAt(s, pat, i);
          assert i != 0;
          assert s[1..][i - 1..i - 1 + |pat|] == s[i..i + |pat|];
          assert OccursAt(s[1..], pat, i - 1);
        }
      }
    } else {
      assert forall i :: !OccursAt(s, pat, i);
    }
  }

  /** `s.components(separatedBy: String(sep))`: the pieces between separators,
      empty pieces included, so the empty string gives `[""]`. */
  function Split(s: string, sep: char): (r: seq<string>)
    ensures |r| >= 1
    decreases |s|
  {
    if |s| == 0 then [""]
    else
      var rest := Split(s[1..], sep);
      if s[0] == sep then [""] + rest else [[s[0]] + rest[0]] + rest[1..]
  }

  /** The pieces joined back with `sep` between them. */
  function Join(ts: seq<string>, sep: char): string
    requires |ts| >= 1
    decreases |ts|
  {
    if |ts| == 1 then ts[0] else ts[0] + [sep] + Join(ts[1..], sep)
  }

  /** No piece contains the separator. */
  lemma {:induction false} SplitPiecesFree(s: string, sep: char)
    ensures forall t | t in Split(s, sep) :: sep !in t
    decreases |s|
  {
    if |s| != 0 {
      SplitPiecesFree(s[1..], sep);
    }
  }

  /** Joining the pieces gives back the string. */
  lemma {:induction false} JoinSplit(s: string, sep: char)
    ensures Join(Split(s, sep), sep) == s
    decreases |s|
  {
    if |s| != 0 {
      var rest := Split(s[1..], sep);
      JoinSplit(s[1..], sep);
      if s[0] == sep {
        assert ([""] + rest)[1..] == rest;
      } else {
        var r := [[s[0]] + rest[0]] + rest[1..];
        if |rest| > 1 {
          assert r[1..] == rest[1..];
          assert Join(rest, sep) == rest[0] + [sep] + Join(rest[1..], sep);
        }
      }
    }
  }

  /** Splitting a piece that holds no separator, followed by a separator. */
  lemma {:induction false} SplitAfterPiece(t: string, sep: char, rest: string)
    requires sep !in t
    ensures Split(t + [sep] + rest, sep) == [t] + Split(rest, sep)
    decreases |t|
  {
    var s := t + [sep] + rest;
    if |t| == 0 {
      assert s[1..] == rest;
    } else {
      assert s[1..] == t[1..] + [sep] + rest;
      SplitAfterPiece(t[1..], sep, rest);
      assert [t[0]] + t[1..] == t;
    }
  }

  /** A string without the separator is a single piece. */
  lemma {:induction false} SplitNoSeparator(t: string, sep: char)
    requires sep !in t
    ensures Split(t, sep) == [t]
    decreases |t|
  {
    if |t| != 0 {
      SplitNoSeparator(t[1..], sep);
      assert [t[0]] + t[1..] == t;
    }
  }

  /** Splitting what was joined gives back the pieces, provided no piece holds
      the separator. */
  lemma {:induction false} SplitJoin(ts: seq<string>, sep: char)
    requires |ts| >= 1
    requires forall t | t in ts :: sep !in t
    ensures Split(Join(ts, sep), sep) == ts
    decreases |ts|
  {
    if |ts| == 1 {
      SplitNoSeparator(ts[0], sep);
    } else {
      assert ts[0] in ts;
      assert forall t | t in ts[1..] :: t in ts;
      SplitJoin(ts[1..], sep);
      SplitAfterPiece(ts[0], sep, Join(ts[1..], sep));
      assert [ts[0]] + ts[1..] == ts;
    }
  }

  /** There is one piece more than there are separators. */
  lemma {:induction false} SplitCount(s: string, sep: char)
    ensures |Split(s, sep)| == multiset(s)[sep] + 1
    decreases |s|
  {
    if |s| != 0 {
      SplitCount(s[1..], sep);
      assert s == [s[0]] + s[1..];
      assert multiset(s) == multiset([s[0]]) + multiset(s[1..]);
    }
  }

  /** Every piece of `ts` with `c` removed. */
  function StripAll(ts: seq<string>, c: char): seq<string> {
    seq(|ts|, i requires 0 <= i < |ts| => Strip(ts[i], c))
  }

  /** Removing a character other than the separator can be done piece by piece. */
  lemma {:induction false} StripJoin(ts: seq<string>, sep: char, c: char)
    requires |ts| >= 1 && sep != c
    ensures Strip(Join(ts, sep), c) == Join(StripAll(ts, c), sep)
    decreases |ts|
  {
    var st := StripAll(ts, c);
    if |ts| > 1 {
      StripJoin(ts[1..], sep, c);
      StripConcat(ts[0] + [sep], Join(ts[1..], sep), c);
      StripConcat(ts[0], [sep], c);
      StripAbsent([sep], c);
      assert st[1..] == StripAll(ts[1..], c);
    }
  }
}
