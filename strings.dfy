/** The pieces of Rust's `str` API that the engine, the prompt template and the
    configuration walk rely on: `trim`, `replace`, `split`, `join` and the
    first-match `position` of an iterator. Strings are sequences of characters. */
module Strings {
  import opened Wrappers

  /** Rust's `char::is_whitespace`: the characters with the Unicode White_Space property. */
  predicate IsWhitespace(c: char) {
    var n := c as int;
    || (0x09 <= n <= 0x0D)
    || n == 0x20
    || n == 0x85
    || n == 0xA0
    || n == 0x1680
    || (0x2000 <= n <= 0x200A)
    || n == 0x2028
    || n == 0x2029
    || n == 0x202F
    || n == 0x205F
    || n == 0x3000
  }

  /** Where `str::trim_start` cuts: the length of the leading run of whitespace. */
  function TrimStartIndex(s: string): (k: nat)
    ensures k <= |s|
    ensures forall j :: 0 <= j < k ==> IsWhitespace(s[j])
    ensures k < |s| ==> !IsWhitespace(s[k])
  {
    if s != [] && IsWhitespace(s[0]) then
      var k := 1 + TrimStartIndex(s[1..]);
      assert forall j :: 1 <= j < k ==> s[j] == s[1..][j - 1];
      k
    else 0
  }

  /** Where `str::trim_end` cuts: the length of `s` without its trailing run of whitespace. */
  function TrimEndIndex(s: string): (k: nat)
    ensures k <= |s|
    ensures forall j :: k <= j < |s| ==> IsWhitespace(s[j])
    ensures k > 0 ==> !IsWhitespace(s[k - 1])
  {
    if s != [] && IsWhitespace(s[|s| - 1]) then
      var k := TrimEndIndex(s[..|s| - 1]);
      assert forall j :: k <= j < |s| - 1 ==> s[j] == s[..|s| - 1][j];
      k
    else |s|
  }

  /** `r` is the slice of `s` starting at `i`, and everything around it is whitespace. */
  predicate TrimmedAt(s: string, r: string, i: int) {
    && 0 <= i && i + |r| <= |s|
    && r == s[i..i + |r|]
    && (forall j :: 0 <= j < i ==> IsWhitespace(s[j]))
    && (forall j :: i + |r| <= j < |s| ==> IsWhitespace(s[j]))
  }

  /** `str::trim`: the slice of `s` left once the leading and trailing whitespace are gone
      (`trim_start` then `trim_end`; nothing is left when `s` is all whitespace). */
  function Trim(s: string): (r: string)
    ensures exists i :: TrimmedAt(s, r, i)
    ensures r != [] ==> !IsWhitespace(r[0]) && !IsWhitespace(r[|r| - 1])
  {
    var i := TrimStartIndex(s);
    var e := TrimEndIndex(s);
    if i < e then
      assert TrimmedAt(s, s[i..e], i);
      s[i..e]
    else
      assert TrimmedAt(s, [], i);
      []
  }

  /** Trimming removes exactly the maximal whitespace runs at both ends: any slice of `s`
      surrounded only by whitespace and not itself starting or ending with whitespace is
      the trimmed string (or `s` is all whitespace and both are empty). */
  lemma TrimIsMaximalStrip(s: string, r: string, i: int)
    requires TrimmedAt(s, r, i)
    requires r != [] ==> !IsWhitespace(r[0]) && !IsWhitespace(r[|r| - 1])
    ensures Trim(s) == r
  {
    var k := TrimStartIndex(s);
    var e := TrimEndIndex(s);
    if r == [] {
      assert k == |s|;
      assert e <= k;
    } else {
      assert s[i] == r[0] && s[i + |r| - 1] == r[|r| - 1];
      assert k == i;
      assert e == i + |r|;
    }
  }

  /** A string that neither starts nor ends with whitespace is its own trim. */
  lemma TrimKeepsUnpadded(s: string)
    requires s != [] ==> !IsWhitespace(s[0]) && !IsWhitespace(s[|s| - 1])
    ensures Trim(s) == s
  {
    assert s[0..|s|] == s;
    TrimIsMaximalStrip(s, s, 0);
  }

  /** The pattern `p` occurs in `s` at index `i`. */
  predicate OccursAt(s: string, p: string, i: int) {
    0 <= i && i + |p| <= |s| && s[i..i + |p|] == p
  }

  predicate Contains(s: string, p: string) {
    exists i | 0 <= i <= |s| :: OccursAt(s, p, i)
  }

  /** `str::replace`: scans left to right and replaces every non-overlapping occurrence of
      `p` by `v`; the scan resumes after the replaced occurrence, so `v` is never rescanned. */
  function ReplaceAll(s: string, p: string, v: string): string
    requires p != []
    decreases |s|
  {
    if |s| < |p| then s
    else if s[..|p|] == p then v + ReplaceAll(s[|p|..], p, v)
    else [s[0]] + ReplaceAll(s[1..], p, v)
  }

  /** `str::split`: the pieces between the non-overlapping occurrences of `p`, found left to right. */
  function Split(s: string, p: string): (pieces: seq<string>)
    requires p != []
    ensures |pieces| >= 1
    decreases |s|
  {
    if |s| < |p| then [s]
    else if s[..|p|] == p then [[]] + Split(s[|p|..], p)
    else
      var rest := Split(s[1..], p);
      [[s[0]] + rest[0]] + rest[1..]
  }

  /** `join`: the pieces with `sep` between each pair of neighbours. */
  function Join(pieces: seq<string>, sep: string): string {
    if |pieces| == 0 then []
    else if |pieces| == 1 then pieces[0]
    else pieces[0] + sep + Join(pieces[1..], sep)
  }

  lemma {:induction false} JoinCons(piece: string, pieces: seq<string>, sep: string)
    requires |pieces| >= 1
    ensures Join([piece] + pieces, sep) == piece + sep + Join(pieces, sep)
  {
    assert ([piece] + pieces)[1..] == pieces;
  }

  lemma {:induction false} JoinExtendFirst(c: char, pieces: seq<string>, sep: string)
    requires |pieces| >= 1
    ensures Join([[c] + pieces[0]] + pieces[1..], sep) == [c] + Join(pieces, sep)
  {
    if |pieces| > 1 {
      JoinCons([c] + pieces[0], pieces[1..], sep);
      JoinCons(pieces[0], pieces[1..], sep);
      assert [pieces[0]] + pieces[1..] == pieces;
    }
  }

  /** A split that starts at an occurrence of the pattern opens with an empty piece. */
  lemma SplitAfterMatch(p: string, after: string)
    requires p != []
    ensures Split(p + after, p) == [[]] + Split(after, p)
  {
    var s := p + after;
    assert s[..|p|] == p && s[|p|..] == after;
  }

  lemma JoinEmptyFirst(rest: seq<string>, p: string)
    requires |rest| >= 1
    ensures Join([[]] + rest, p) == p + Join(rest, p)
  {
    JoinCons([], rest, p);
    assert [] + p == p;
  }

  lemma JoinSplitAtOther(s: string, p: string)
    requires p != [] && |p| <= |s| && s[..|p|] != p
    requires Join(Split(s[1..], p), p) == s[1..]
    ensures Join(Split(s, p), p) == s
  {
    JoinExtendFirst(s[0], Split(s[1..], p), p);
    assert s == [s[0]] + s[1..];
  }

  /** Splitting and joining back with the same pattern gives the original string. */
  lemma {:induction false} JoinSplit(s: string, p: string)
    requires p != []
    ensures Join(Split(s, p), p) == s
    decreases |s|
  {
    if |s| < |p| {
    } else if s[..|p|] == p {
      var after := s[|p|..];
      JoinSplit(after, p);
      assert s == p + after;
      SplitAfterMatch(p, after);
      JoinEmptyFirst(Split(after, p), p);
    } else {
      JoinSplit(s[1..], p);
      JoinSplitAtOther(s, p);
    }
  }

  /** The first piece of a split is a prefix of the string. */
  lemma {:induction false} SplitFirstIsPrefix(s: string, p: string)
    requires p != []
    ensures Split(s, p)[0] <= s
    decreases |s|
  {
    if |s| < |p| {
    } else if s[..|p|] == p {
    } else {
      SplitFirstIsPrefix(s[1..], p);
    }
  }

  lemma NotContainsCons(c: char, x: string, p: string, whole: string)
    requires p != []
    requires !Contains(x, p)
    requires [c] + x <= whole
    requires !(|p| <= |whole| && whole[..|p|] == p)
    ensures !Contains([c] + x, p)
  {
    var y := [c] + x;
    if i :| OccursAt(y, p, i) {
      if i == 0 {
        assert false;
      } else {
        assert y[i..i + |p|] == x[i - 1..i - 1 + |p|];
        assert OccursAt(x, p, i - 1);
        assert false;
      }
    }
  }

  /** No piece of a split contains the pattern: every occurrence was a cut point. */
  lemma {:induction false} SplitPiecesAvoidPattern(s: string, p: string)
    requires p != []
    ensures forall k :: 0 <= k < |Split(s, p)| ==> !Contains(Split(s, p)[k], p)
    decreases |s|
  {
    var pieces := Split(s, p);
    if |s| < |p| {
      forall i | OccursAt(s, p, i) ensures false { }
    } else if s[..|p|] == p {
      SplitPiecesAvoidPattern(s[|p|..], p);
      forall i | OccursAt([], p, i) ensures false { }
    } else {
      var rest := Split(s[1..], p);
      SplitPiecesAvoidPattern(s[1..], p);
      SplitFirstIsPrefix(s[1..], p);
      NotContainsCons(s[0], rest[0], p, s);
      forall k | 0 <= k < |pieces| ensures !Contains(pieces[k], p) {
        if k > 0 { assert pieces[k] == rest[k]; }
      }
    }
  }

  /** Replacing every occurrence is the same as cutting at every occurrence and joining
      the pieces with the replacement. */
  lemma {:induction false} ReplaceAllIsJoinOfSplit(s: string, p: string, v: string)
    requires p != []
    ensures ReplaceAll(s, p, v) == Join(Split(s, p), v)
    decreases |s|
  {
    if |s| < |p| {
    } else if s[..|p|] == p {
      ReplaceAllIsJoinOfSplit(s[|p|..], p, v);
      JoinCons([], Split(s[|p|..], p), v);
    } else {
      ReplaceAllIsJoinOfSplit(s[1..], p, v);
      JoinExtendFirst(s[0], Split(s[1..], p), v);
    }
  }

  /** A string without the pattern is a single piece. */
  lemma {:induction false} SplitWithoutPattern(s: string, p: string)
    requires p != []
    requires !Contains(s, p)
    ensures Split(s, p) == [s]
    decreases |s|
  {
    if |s| < |p| {
    } else if s[..|p|] == p {
      assert OccursAt(s, p, 0);
    } else {
      assert !Contains(s[1..], p) by {
        if i :| OccursAt(s[1..], p, i) {
          assert s[1..][i..i + |p|] == s[i + 1..i + 1 + |p|];
          assert OccursAt(s, p, i + 1);
        }
      }
      SplitWithoutPattern(s[1..], p);
      assert s == [s[0]] + s[1..];
    }
  }

  /** `replace` leaves a string without the pattern unchanged. */
  lemma ReplaceAllAbsent(s: string, p: string, v: string)
    requires p != []
    requires !Contains(s, p)
    ensures ReplaceAll(s, p, v) == s
  {
    ReplaceAllIsJoinOfSplit(s, p, v);
    SplitWithoutPattern(s, p);
  }

  /** Puts one character in front of split pieces: the separator opens a new empty piece,
      any other character joins the first piece. */
  function PushChar(c: char, pieces: seq<string>, sep: string): (r: seq<string>)
    requires |pieces| >= 1
    ensures |r| >= 1
  {
    if [c] == sep then [[]] + pieces else [[c] + pieces[0]] + pieces[1..]
  }

  lemma PushCharAppend(c: char, pa: seq<string>, pb: seq<string>, sep: string)
    requires |pa| >= 1
    ensures PushChar(c, pa + pb, sep) == PushChar(c, pa, sep) + pb
  {
    if [c] != sep {
      assert (pa + pb)[1..] == pa[1..] + pb;
    }
  }

  /** Splitting on a one-character separator, one character at a time. */
  lemma SplitCons(c: char, t: string, sep: string)
    requires |sep| == 1
    ensures Split([c] + t, sep) == PushChar(c, Split(t, sep), sep)
  {
    var s := [c] + t;
    assert s[..1] == [c] && s[1..] == t;
  }

  /** Splitting on a one-character separator distributes over a separator between two
      strings: the pieces of `a + sep + b` are the pieces of `a` followed by those of `b`. */
  lemma {:induction false} SplitAtSeparator(a: string, sep: string, b: string)
    requires |sep| == 1
    ensures Split(a + sep + b, sep) == Split(a, sep) + Split(b, sep)
    decreases |a|
  {
    if a == [] {
      assert a + sep + b == [sep[0]] + b;
      SplitCons(sep[0], b, sep);
      assert Split(a, sep) == [[]];
    } else {
      var tail := a[1..];
      assert a == [a[0]] + tail;
      assert a + sep + b == [a[0]] + (tail + sep + b);
      SplitAtSeparator(tail, sep, b);
      SplitCons(a[0], tail, sep);
      SplitCons(a[0], tail + sep + b, sep);
      PushCharAppend(a[0], Split(tail, sep), Split(b, sep), sep);
    }
  }

  /** `Iterator::position` for equality: the index of the first element equal to `x`. */
  function Position(xs: seq<string>, x: string): (r: Option<nat>)
    ensures r.Some? ==> r.value < |xs| && xs[r.value] == x
    ensures r.Some? ==> forall j :: 0 <= j < r.value ==> xs[j] != x
    ensures r.None? ==> forall j :: 0 <= j < |xs| ==> xs[j] != x
  {
    if xs == [] then None
    else if xs[0] == x then Some(0)
    else match Position(xs[1..], x)
      case None => None
      case Some(k) => Some(k + 1)
  }

  /** The index of an element equal to `x` with none equal before it is the position of `x`. */
  lemma PositionOfFirst(xs: seq<string>, x: string, i: nat)
    requires i < |xs| && xs[i] == x
    requires forall j :: 0 <= j < i ==> xs[j] != x
    ensures Position(xs, x) == Some(i)
  {
  }
}
