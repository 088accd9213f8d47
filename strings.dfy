/**
 * The byte-string helpers of Go's standard library that the template engine
 * and the table renderer rely on: bytes.Index, strings.TrimSpace,
 * strings.Split on "\n", strings.Repeat and strings.Join.
 * A Go string is a sequence of bytes; here each byte is one `char`.
 */
module Strings {

  /** `p` occurs in `s` at position `i`, compared byte by byte. */
  predicate MatchAt(s: string, p: string, i: int)
  {
    0 <= i && i + |p| <= |s| && forall j :: 0 <= j < |p| ==> s[i + j] == p[j]
  }

  /** The first occurrence of `p` in `s` at or after `i`, or -1. */
  function IndexFrom(s: string, p: string, i: nat): (r: int)
    ensures r == -1 || (i <= r && r + |p| <= |s|)
    decreases |s| - i
  {
    if i + |p| > |s| then -1
    else if MatchAt(s, p, i) then i
    else IndexFrom(s, p, i + 1)
  }

  /** IndexFrom finds a match, and no match comes before it. */
  lemma {:induction false} IndexFromFirst(s: string, p: string, i: nat)
    ensures IndexFrom(s, p, i) >= 0 ==> MatchAt(s, p, IndexFrom(s, p, i))
    ensures forall j :: i <= j && (IndexFrom(s, p, i) < 0 || j < IndexFrom(s, p, i)) ==> !MatchAt(s, p, j)
    decreases |s| - i
  {
    if i + |p| > |s| {
    } else if MatchAt(s, p, i) {
    } else {
      IndexFromFirst(s, p, i + 1);
    }
  }

  /** bytes.Index: the position of the first occurrence of `p` in `s`, or -1. */
  function IndexOf(s: string, p: string): (r: int)
    ensures r == -1 || (0 <= r && r + |p| <= |s|)
  {
    IndexFrom(s, p, 0)
  }

  /** IndexOf finds an occurrence of `p`, and none comes before it; with -1,
      there is none at all. */
  lemma IndexOfFirst(s: string, p: string)
    ensures IndexOf(s, p) >= 0 ==> MatchAt(s, p, IndexOf(s, p))
    ensures forall j :: 0 <= j && (IndexOf(s, p) < 0 || j < IndexOf(s, p)) ==> !MatchAt(s, p, j)
  {
    IndexFromFirst(s, p, 0);
  }

  /** IndexFrom finds `n` when `s` matches there and nowhere between `i` and
      `n`. */
  lemma IndexFromIs(s: string, p: string, i: nat, n: nat)
    requires i <= n && MatchAt(s, p, n)
    requires forall j :: i <= j < n ==> !MatchAt(s, p, j)
    ensures IndexFrom(s, p, i) == n
  {
    IndexFromFirst(s, p, i);
  }

  /** Searching `u + v` past `u` is searching `v`, shifted by |u|. */
  lemma {:induction false} IndexFromConcat(u: string, v: string, p: string, j: nat)
    ensures var r := IndexFrom(v, p, j);
      IndexFrom(u + v, p, |u| + j) == if r < 0 then -1 else |u| + r
    decreases |v| - j
  {
    if j + |p| <= |v| {
      assert MatchAt(u + v, p, |u| + j) <==> MatchAt(v, p, j) by {
        forall k | j <= k < j + |p| ensures (u + v)[|u| + k] == v[k] { }
      }
      IndexFromConcat(u, v, p, j + 1);
    }
  }

  /** s[i..j], built byte by byte from the right. */
  function Slice(s: string, i: nat, j: nat): (r: string)
    requires i <= j <= |s|
    ensures |r| == j - i
    decreases j - i
  {
    if i == j then [] else Slice(s, i, j - 1) + [s[j - 1]]
  }

  /** Slice is the slice operation. */
  lemma {:induction false} SliceIs(s: string, i: nat, j: nat)
    requires i <= j <= |s|
    ensures Slice(s, i, j) == s[i..j]
    decreases j - i
  {
    if i < j {
      SliceIs(s, i, j - 1);
      assert s[i..j] == s[i..j - 1] + [s[j - 1]];
    }
  }

  /** Slice picks the bytes of `s` from `i` on. */
  lemma {:induction false} SliceAt(s: string, i: nat, j: nat)
    requires i <= j <= |s|
    ensures forall k :: 0 <= k < j - i ==> Slice(s, i, j)[k] == s[i + k]
    decreases j - i
  {
    if i < j {
      SliceAt(s, i, j - 1);
    }
  }

  /** Adjacent slices glue into one. */
  lemma {:induction false} SliceGlue(s: string, i: nat, m: nat, j: nat)
    requires i <= m <= j <= |s|
    ensures Slice(s, i, m) + Slice(s, m, j) == Slice(s, i, j)
    decreases j - m
  {
    if m < j {
      SliceGlue(s, i, m, j - 1);
      assert Slice(s, i, m) + Slice(s, m, j) == (Slice(s, i, m) + Slice(s, m, j - 1)) + [s[j - 1]];
    }
  }

  /** A slice past `u` of `u + v` is the slice of `v`. */
  lemma {:induction false} SliceConcat(u: string, v: string, i: nat, j: nat)
    requires i <= j <= |v|
    ensures Slice(u + v, |u| + i, |u| + j) == Slice(v, i, j)
    decreases j - i
  {
    if i < j {
      SliceConcat(u, v, i, j - 1);
    }
  }

  /** A slice of `s` matches `p` at `j` exactly where `s` matches it at
      `i + j`, for matches that end within the slice. */
  lemma MatchInSlice(s: string, i: nat, e: nat, p: string, j: nat)
    requires i <= e <= |s| && j + |p| <= e - i
    ensures MatchAt(Slice(s, i, e), p, j) <==> MatchAt(s, p, i + j)
  {
    SliceAt(s, i, e);
    forall k | j <= k < j + |p| ensures Slice(s, i, e)[k] == s[i + k] { }
  }

  /** The bytes where IndexFrom finds `p` are `p`. */
  lemma MatchedSlice(s: string, p: string, i: nat)
    requires IndexFrom(s, p, i) >= 0
    ensures var n := IndexFrom(s, p, i); Slice(s, n, n + |p|) == p
  {
    var n := IndexFrom(s, p, i);
    IndexFromFirst(s, p, i);
    SliceAt(s, n, n + |p|);
  }

  /** The ASCII white-space bytes of Go's unicode.IsSpace. */
  predicate IsSpace(c: char)
  {
    c == ' ' || c == '\t' || c == '\n' || c == '\r' || c == '\U{000B}' || c == '\U{000C}'
  }

  /** `s` neither starts nor ends with white space. */
  predicate Trimmed(s: string)
  {
    s == [] || (!IsSpace(s[0]) && !IsSpace(s[|s| - 1]))
  }

  /** The end of the run of white space that starts at `i`. */
  function SpaceEnd(s: string, i: nat): (n: nat)
    requires i <= |s|
    ensures i <= n <= |s|
    decreases |s| - i
  {
    if i < |s| && IsSpace(s[i]) then SpaceEnd(s, i + 1) else i
  }

  /** SpaceEnd stops at the first byte from `i` on that is not white space. */
  lemma {:induction false} SpaceEndIs(s: string, i: nat)
    requires i <= |s|
    ensures forall k :: i <= k < SpaceEnd(s, i) ==> IsSpace(s[k])
    ensures SpaceEnd(s, i) == |s| || !IsSpace(s[SpaceEnd(s, i)])
    decreases |s| - i
  {
    if i < |s| && IsSpace(s[i]) {
      SpaceEndIs(s, i + 1);
    }
  }

  /** The start of the run of white space that ends at `j`, not going below
      `lo`. */
  function SpaceStart(s: string, lo: nat, j: nat): (m: nat)
    requires lo <= j <= |s|
    ensures lo <= m <= j
    decreases j - lo
  {
    if lo < j && IsSpace(s[j - 1]) then SpaceStart(s, lo, j - 1) else j
  }

  /** SpaceStart stops after the last byte before `j` that is not white
      space, or at `lo`. */
  lemma {:induction false} SpaceStartIs(s: string, lo: nat, j: nat)
    requires lo <= j <= |s|
    ensures forall k :: SpaceStart(s, lo, j) <= k < j ==> IsSpace(s[k])
    ensures SpaceStart(s, lo, j) == lo || !IsSpace(s[SpaceStart(s, lo, j) - 1])
    decreases j - lo
  {
    if lo < j && IsSpace(s[j - 1]) {
      SpaceStartIs(s, lo, j - 1);
    }
  }

  /** `r` is what is left of `s` after dropping `i` white-space bytes in
      front and all bytes after `i + |r|`, which are white space too. */
  predicate InfixAmidSpace(r: string, s: string, i: int)
  {
    0 <= i && i + |r| <= |s| && (forall k :: 0 <= k < |r| ==> r[k] == s[i + k])
    && (forall k :: 0 <= k < i ==> IsSpace(s[k]))
    && (forall k :: i + |r| <= k < |s| ==> IsSpace(s[k]))
  }

  /** strings.TrimSpace: drops the white space at both ends. */
  function TrimSpace(s: string): string
  {
    Slice(s, SpaceEnd(s, 0), SpaceStart(s, SpaceEnd(s, 0), |s|))
  }

  /** TrimSpace leaves the infix of `s` between white space at both ends, and
      that infix neither starts nor ends with white space. */
  lemma TrimSpaceInfix(s: string)
    ensures exists i :: InfixAmidSpace(TrimSpace(s), s, i)
    ensures Trimmed(TrimSpace(s))
  {
    var i := SpaceEnd(s, 0);
    var j := SpaceStart(s, i, |s|);
    var r := TrimSpace(s);
    SpaceEndIs(s, 0);
    SpaceStartIs(s, i, |s|);
    SliceIs(s, i, j);
    assert r == s[i..j];
    assert InfixAmidSpace(r, s, i);
    if r != [] {
      assert r[0] == s[i] && r[|r| - 1] == s[j - 1];
    }
  }

  /** Trimming leaves a string that has nothing to trim unchanged. */
  lemma TrimSpaceOfTrimmed(s: string)
    requires Trimmed(s)
    ensures TrimSpace(s) == s
  {
    if s != [] {
      assert SpaceEnd(s, 0) == 0;
      assert SpaceStart(s, 0, |s|) == |s|;
      SliceIs(s, 0, |s|);
      assert s[0..|s|] == s;
    }
  }

  /** strings.TrimSpace is idempotent. */
  lemma TrimSpaceIdempotent(s: string)
    ensures TrimSpace(TrimSpace(s)) == TrimSpace(s)
  {
    TrimSpaceInfix(s);
    TrimSpaceOfTrimmed(TrimSpace(s));
  }

  /** strings.Join(parts, sep). */
  function Join(parts: seq<string>, sep: string): (r: string)
    ensures |parts| == 1 ==> r == parts[0]
  {
    if parts == [] then []
    else if |parts| == 1 then parts[0]
    else parts[0] + sep + Join(parts[1..], sep)
  }

  /** The lines of `s` from position `pos` on: strings.Split(s[pos:], "\n"). */
  function LinesFrom(s: string, pos: nat): seq<string>
    requires pos <= |s|
    decreases |s| - pos
  {
    var i := IndexFrom(s, "\n", pos);
    if i < 0 then [Slice(s, pos, |s|)] else [Slice(s, pos, i)] + LinesFrom(s, i + 1)
  }

  /** strings.Split(s, "\n"): the text between consecutive newlines. */
  function SplitLines(s: string): seq<string>
  {
    LinesFrom(s, 0)
  }

  /** A newline found at `i` is the byte there. */
  lemma NewlineAt(s: string, pos: nat)
    requires IndexFrom(s, "\n", pos) >= 0
    ensures var i := IndexFrom(s, "\n", pos); Slice(s, i, i + 1) == "\n"
  {
    var i := IndexFrom(s, "\n", pos);
    IndexFromFirst(s, "\n", pos);
    assert s[i + 0] == "\n"[0];
  }

  /** No byte between `pos` and the next newline (or the end) is a newline. */
  lemma NoNewlineBefore(s: string, pos: nat, m: nat)
    requires pos <= m <= |s|
    requires IndexFrom(s, "\n", pos) < 0 || m <= IndexFrom(s, "\n", pos)
    ensures '\n' !in Slice(s, pos, m)
  {
    IndexFromFirst(s, "\n", pos);
    SliceAt(s, pos, m);
    forall k | 0 <= k < m - pos ensures Slice(s, pos, m)[k] != '\n' {
      assert !MatchAt(s, "\n", pos + k);
    }
  }

  /** There is at least one line, no line holds a newline, and joining the
      lines with newlines gives back the text. */
  lemma {:induction false} LinesFromJoin(s: string, pos: nat)
    requires pos <= |s|
    ensures |LinesFrom(s, pos)| >= 1
    ensures forall k :: 0 <= k < |LinesFrom(s, pos)| ==> '\n' !in LinesFrom(s, pos)[k]
    ensures Join(LinesFrom(s, pos), "\n") == Slice(s, pos, |s|)
    decreases |s| - pos
  {
    var i := IndexFrom(s, "\n", pos);
    if i < 0 {
      NoNewlineBefore(s, pos, |s|);
    } else {
      NoNewlineBefore(s, pos, i);
      NewlineAt(s, pos);
      LinesFromJoin(s, i + 1);
      SliceGlue(s, pos, i, i + 1);
      SliceGlue(s, pos, i + 1, |s|);
      var ls := LinesFrom(s, pos);
      assert ls[1..] == LinesFrom(s, i + 1);
    }
  }

  /** strings.Split(s, "\n") round-trips through strings.Join(lines, "\n"),
      and no line holds a newline. */
  lemma SplitLinesJoin(s: string)
    ensures |SplitLines(s)| >= 1
    ensures forall k :: 0 <= k < |SplitLines(s)| ==> '\n' !in SplitLines(s)[k]
    ensures Join(SplitLines(s), "\n") == s
  {
    LinesFromJoin(s, 0);
    SliceIs(s, 0, |s|);
  }

  /** A string without a newline has no newline to find. */
  lemma NoNewlineFound(s: string, i: nat)
    requires '\n' !in s
    ensures IndexFrom(s, "\n", i) < 0
  {
    IndexFromFirst(s, "\n", i);
    forall k | 0 <= k < |s| ensures !MatchAt(s, "\n", k) {
      assert s[k] in s;
      assert s[k + 0] != "\n"[0];
    }
  }

  /** The lines of `u + v` after `u` are the lines of `v`. */
  lemma {:induction false} LinesFromConcat(u: string, v: string, j: nat)
    requires j <= |v|
    ensures LinesFrom(u + v, |u| + j) == LinesFrom(v, j)
    decreases |v| - j
  {
    IndexFromConcat(u, v, "\n", j);
    var r := IndexFrom(v, "\n", j);
    if r < 0 {
      assert IndexFrom(u + v, "\n", |u| + j) < 0;
      SliceConcat(u, v, j, |v|);
      assert LinesFrom(u + v, |u| + j) == [Slice(u + v, |u| + j, |u| + |v|)];
      assert LinesFrom(v, j) == [Slice(v, j, |v|)];
    } else {
      assert IndexFrom(u + v, "\n", |u| + j) == |u| + r;
      SliceConcat(u, v, j, r);
      LinesFromConcat(u, v, r + 1);
      assert LinesFrom(u + v, |u| + j) == [Slice(u + v, |u| + j, |u| + r)] + LinesFrom(u + v, |u| + (r + 1));
      assert LinesFrom(v, j) == [Slice(v, j, r)] + LinesFrom(v, r + 1);
    }
  }

  /** Splitting cuts at the first newline. */
  lemma SplitLinesCut(a: string, b: string)
    requires '\n' !in a
    ensures SplitLines(a + "\n" + b) == [a] + SplitLines(b)
  {
    var s := a + "\n" + b;
    assert MatchAt(s, "\n", |a|) by { assert s[|a| + 0] == '\n'; }
    forall j | 0 <= j < |a| ensures !MatchAt(s, "\n", j) {
      assert s[j + 0] == a[j] && a[j] in a && "\n"[0] == '\n';
    }
    IndexFromIs(s, "\n", 0, |a|);
    SliceIs(s, 0, |a|);
    assert s[0..|a|] == a;
    LinesFromConcat(a + "\n", b, 0);
  }

  /** strings.Split(strings.Join(parts, "\n"), "\n") gives back `parts`
      when no part holds a newline. */
  lemma {:induction false} SplitLinesOfJoin(parts: seq<string>)
    requires parts != [] && forall k :: 0 <= k < |parts| ==> '\n' !in parts[k]
    ensures SplitLines(Join(parts, "\n")) == parts
    decreases |parts|
  {
    if |parts| == 1 {
      NoNewlineFound(parts[0], 0);
      SliceIs(parts[0], 0, |parts[0]|);
      assert parts[0][0..|parts[0]|] == parts[0];
    } else {
      SplitLinesCut(parts[0], Join(parts[1..], "\n"));
      SplitLinesOfJoin(parts[1..]);
    }
  }

  /** Each newline from `pos` on starts one more line. */
  lemma {:induction false} LinesFromCount(s: string, pos: nat)
    requires pos <= |s|
    ensures |LinesFrom(s, pos)| == multiset(Slice(s, pos, |s|))['\n'] + 1
    decreases |s| - pos
  {
    var i := IndexFrom(s, "\n", pos);
    if i < 0 {
      assert |LinesFrom(s, pos)| == 1;
      NoNewlineBefore(s, pos, |s|);
      assert multiset(Slice(s, pos, |s|))['\n'] == 0 by { assert '\n' !in multiset(Slice(s, pos, |s|)); }
    } else {
      NoNewlineBefore(s, pos, i);
      NewlineAt(s, pos);
      LinesFromCount(s, i + 1);
      assert |LinesFrom(s, pos)| == 1 + |LinesFrom(s, i + 1)|;
      NewlineCountStep(s, pos, i);
    }
  }

  /** Cutting at a newline takes one newline out of the count. */
  lemma NewlineCountStep(s: string, pos: nat, i: nat)
    requires pos <= i < |s| && Slice(s, i, i + 1) == "\n" && '\n' !in Slice(s, pos, i)
    ensures multiset(Slice(s, pos, |s|))['\n'] == multiset(Slice(s, i + 1, |s|))['\n'] + 1
  {
    SliceGlue(s, pos, i, i + 1);
    SliceGlue(s, pos, i + 1, |s|);
    var pre, rest := Slice(s, pos, i), Slice(s, i + 1, |s|);
    assert Slice(s, pos, |s|) == pre + "\n" + rest;
    assert multiset(pre)['\n'] == 0 by { assert '\n' !in multiset(pre); }
    MultisetCount3(pre, "\n", rest, '\n');
    assert multiset("\n")['\n'] == 1;
  }

  /** A character occurs in three strings joined as often as in the three
      taken apart. */
  lemma MultisetCount3(a: string, b: string, c: string, x: char)
    ensures multiset(a + b + c)[x] == multiset(a)[x] + multiset(b)[x] + multiset(c)[x]
  {
    assert multiset(a + b + c) == multiset(a) + multiset(b) + multiset(c);
  }

  /** strings.Split(s, "\n") yields one more line than `s` has newlines. */
  lemma SplitLinesCount(s: string)
    ensures |SplitLines(s)| == multiset(s)['\n'] + 1
  {
    LinesFromCount(s, 0);
    SliceIs(s, 0, |s|);
    assert s[0..|s|] == s;
  }

  /** strings.Repeat(string(c), n). */
  function Repeat(c: char, n: nat): (r: string)
    ensures |r| == n && forall k :: 0 <= k < n ==> r[k] == c
  {
    seq(n, _ => c)
  }
}
