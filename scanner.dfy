/**
 * The scanner of internal/template/template.go: how ExecuteFunc splits a
 * template into literal spans and tags. A template is cut at the first
 * `startTag`; the text up to the next `endTag` is the tag, and scanning
 * resumes after that `endTag`. A `startTag` with no `endTag` after it is
 * written as it is, followed by the rest of the template, unscanned.
 */
module Scanner {
  import opened Strings

  /** How a template splits into spans, in the order ExecuteFunc meets
      them: a final literal; a literal and a start tag left without an end
      tag, followed by the rest of the template, unscanned; or a literal and
      a closed tag (the raw text between its delimiters) followed by the
      split of what comes after the end tag. */
  datatype Split =
    | Tail(text: string)
    | Unclosed(lit: string, rest: string)
    | Tagged(lit: string, raw: string, next: Split)

  /** Glues a split back into template text. */
  function Text(sp: Split, startTag: string, endTag: string): string
  {
    match sp
    case Tail(x) => x
    case Unclosed(x, y) => x + startTag + y
    case Tagged(x, raw, next) => x + startTag + (raw + endTag + Text(next, startTag, endTag))
  }

  /** `s` holds no occurrence of `p`. */
  predicate Free(s: string, p: string)
  {
    forall j :: 0 <= j <= |s| ==> !MatchAt(s, p, j)
  }

  /** No occurrence of `p` starts inside `s`, not even one running into a
      copy of `p` appended to it: the appended copy is the first one. */
  predicate FirstAtEnd(s: string, p: string)
  {
    forall j :: 0 <= j < |s| ==> !MatchAt(s + p, p, j)
  }

  /** The shape every scan has: each literal before a start tag holds no
      earlier start tag, each tag holds no earlier end tag, the final literal
      holds no start tag and the text after an unclosed start tag holds no
      end tag. */
  predicate Canonical(sp: Split, startTag: string, endTag: string)
  {
    match sp
    case Tail(x) => Free(x, startTag)
    case Unclosed(x, y) => FirstAtEnd(x, startTag) && Free(y, endTag)
    case Tagged(x, raw, next) =>
      FirstAtEnd(x, startTag) && FirstAtEnd(raw, endTag) && Canonical(next, startTag, endTag)
  }

  /** The pieces ExecuteFunc visits from position `pos` of template `t` on,
      in order (template.go:32-60): Go re-slices the template as it goes,
      and a position into the whole template stands for that slice. */
  function ScanFrom(t: string, pos: nat, startTag: string, endTag: string): Split
    requires |startTag| + |endTag| > 0 && pos <= |t|
    decreases |t| - pos
  {
    var n := IndexFrom(t, startTag, pos);
    if n < 0 then Tail(Slice(t, pos, |t|))
    else
      var k := IndexFrom(t, endTag, n + |startTag|);
      if k < 0 then Unclosed(Slice(t, pos, n), Slice(t, n + |startTag|, |t|))
      else Tagged(Slice(t, pos, n), Slice(t, n + |startTag|, k), ScanFrom(t, k + |endTag|, startTag, endTag))
  }

  /** ScanFrom with no start tag left. */
  lemma ScanFromEnd(t: string, pos: nat, startTag: string, endTag: string)
    requires |startTag| + |endTag| > 0 && pos <= |t| && IndexFrom(t, startTag, pos) < 0
    ensures ScanFrom(t, pos, startTag, endTag) == Tail(Slice(t, pos, |t|))
  {
  }

  /** ScanFrom with a start tag at `n` and no end tag after it. */
  lemma ScanFromOpen(t: string, pos: nat, n: nat, startTag: string, endTag: string)
    requires |startTag| + |endTag| > 0 && pos <= |t| && IndexFrom(t, startTag, pos) == n
    requires IndexFrom(t, endTag, n + |startTag|) < 0
    ensures n + |startTag| <= |t|
    ensures ScanFrom(t, pos, startTag, endTag) == Unclosed(Slice(t, pos, n), Slice(t, n + |startTag|, |t|))
  {
  }

  /** ScanFrom with a start tag at `n` closed by an end tag at `k`. */
  lemma ScanFromTag(t: string, pos: nat, n: nat, k: nat, startTag: string, endTag: string)
    requires |startTag| + |endTag| > 0 && pos <= |t| && IndexFrom(t, startTag, pos) == n
    requires IndexFrom(t, endTag, n + |startTag|) == k
    ensures pos <= n && n + |startTag| <= k && k + |endTag| <= |t|
    ensures ScanFrom(t, pos, startTag, endTag)
      == Tagged(Slice(t, pos, n), Slice(t, n + |startTag|, k), ScanFrom(t, k + |endTag|, startTag, endTag))
  {
  }

  /** The pieces ExecuteFunc visits in template `t`. */
  function Scan(t: string, startTag: string, endTag: string): Split
    requires |startTag| + |endTag| > 0
  {
    ScanFrom(t, 0, startTag, endTag)
  }

  /** Where IndexFrom finds `p`, the text before it holds no occurrence of
      `p`, and that text with `p` appended is the template up to the end of
      the match. */
  lemma FirstFoundAt(t: string, p: string, pos: nat)
    requires pos <= |t| && IndexFrom(t, p, pos) >= 0
    ensures var n := IndexFrom(t, p, pos);
      FirstAtEnd(Slice(t, pos, n), p) && Slice(t, pos, n) + p == Slice(t, pos, n + |p|)
  {
    var n := IndexFrom(t, p, pos);
    var x := Slice(t, pos, n);
    MatchedSlice(t, p, pos);
    SliceGlue(t, pos, n, n + |p|);
    IndexFromFirst(t, p, pos);
    forall j | 0 <= j < |x| ensures !MatchAt(x + p, p, j) {
      MatchInSlice(t, pos, n + |p|, p, j);
    }
  }

  /** With no `p` found from `pos` on, the rest of the template holds none. */
  lemma NoneFoundAt(t: string, p: string, pos: nat)
    requires pos <= |t| && IndexFrom(t, p, pos) < 0
    ensures Free(Slice(t, pos, |t|), p)
  {
    var x := Slice(t, pos, |t|);
    IndexFromFirst(t, p, pos);
    forall j | 0 <= j <= |x| ensures !MatchAt(x, p, j) {
      if j + |p| <= |x| {
        MatchInSlice(t, pos, |t|, p, j);
      }
    }
  }

  /** Where a start tag but no end tag after it is found from `pos`, the
      template from `pos` on is the literal, the start tag and the rest, with
      no earlier start tag in the literal and no end tag in the rest. */
  lemma FoundOpen(t: string, pos: nat, startTag: string, endTag: string)
    requires pos <= |t| && IndexFrom(t, startTag, pos) >= 0
    requires IndexFrom(t, endTag, IndexFrom(t, startTag, pos) + |startTag|) < 0
    ensures var n := IndexFrom(t, startTag, pos);
      FirstAtEnd(Slice(t, pos, n), startTag) && Free(Slice(t, n + |startTag|, |t|), endTag)
      && Slice(t, pos, |t|) == Slice(t, pos, n) + startTag + Slice(t, n + |startTag|, |t|)
  {
    var n := IndexFrom(t, startTag, pos);
    FirstFoundAt(t, startTag, pos);
    NoneFoundAt(t, endTag, n + |startTag|);
    SliceGlue(t, pos, n + |startTag|, |t|);
  }

  /** Where a start tag and an end tag after it are found from `pos`, the
      template from `pos` on is the literal, the start tag, the tag, the end
      tag and the rest, with no earlier start tag in the literal and no
      earlier end tag in the tag. */
  lemma FoundPair(t: string, pos: nat, startTag: string, endTag: string)
    requires pos <= |t| && IndexFrom(t, startTag, pos) >= 0
    requires IndexFrom(t, endTag, IndexFrom(t, startTag, pos) + |startTag|) >= 0
    ensures var n := IndexFrom(t, startTag, pos);
      var k := IndexFrom(t, endTag, n + |startTag|);
      FirstAtEnd(Slice(t, pos, n), startTag) && FirstAtEnd(Slice(t, n + |startTag|, k), endTag)
      && Slice(t, pos, |t|)
         == Slice(t, pos, n) + startTag + (Slice(t, n + |startTag|, k) + endTag + Slice(t, k + |endTag|, |t|))
  {
    var n := IndexFrom(t, startTag, pos);
    var k := IndexFrom(t, endTag, n + |startTag|);
    FirstFoundAt(t, startTag, pos);
    FirstFoundAt(t, endTag, n + |startTag|);
    SliceGlue(t, n + |startTag|, k + |endTag|, |t|);
    SliceGlue(t, pos, n + |startTag|, |t|);
  }

  /** The scan from `pos` with no start tag left. */
  lemma SplitsEnd(t: string, pos: nat, startTag: string, endTag: string)
    requires |startTag| + |endTag| > 0 && pos <= |t| && IndexFrom(t, startTag, pos) < 0
    ensures Text(ScanFrom(t, pos, startTag, endTag), startTag, endTag) == Slice(t, pos, |t|)
    ensures Canonical(ScanFrom(t, pos, startTag, endTag), startTag, endTag)
  {
    NoneFoundAt(t, startTag, pos);
    ScanFromEnd(t, pos, startTag, endTag);
  }

  /** The scan from `pos` with a start tag left unclosed. */
  lemma SplitsOpen(t: string, pos: nat, startTag: string, endTag: string)
    requires |startTag| + |endTag| > 0 && pos <= |t| && IndexFrom(t, startTag, pos) >= 0
    requires IndexFrom(t, endTag, IndexFrom(t, startTag, pos) + |startTag|) < 0
    ensures Text(ScanFrom(t, pos, startTag, endTag), startTag, endTag) == Slice(t, pos, |t|)
    ensures Canonical(ScanFrom(t, pos, startTag, endTag), startTag, endTag)
  {
    FoundOpen(t, pos, startTag, endTag);
    ScanFromOpen(t, pos, IndexFrom(t, startTag, pos), startTag, endTag);
  }

  /** The scan from `pos` with a closed tag, given that the scan after its
      end tag glues back and is canonical. */
  lemma SplitsTagged(t: string, pos: nat, startTag: string, endTag: string)
    requires |startTag| + |endTag| > 0 && pos <= |t| && IndexFrom(t, startTag, pos) >= 0
    requires IndexFrom(t, endTag, IndexFrom(t, startTag, pos) + |startTag|) >= 0
    requires var k := IndexFrom(t, endTag, IndexFrom(t, startTag, pos) + |startTag|);
      k + |endTag| <= |t|
      && Text(ScanFrom(t, k + |endTag|, startTag, endTag), startTag, endTag) == Slice(t, k + |endTag|, |t|)
      && Canonical(ScanFrom(t, k + |endTag|, startTag, endTag), startTag, endTag)
    ensures Text(ScanFrom(t, pos, startTag, endTag), startTag, endTag) == Slice(t, pos, |t|)
    ensures Canonical(ScanFrom(t, pos, startTag, endTag), startTag, endTag)
  {
    var n := IndexFrom(t, startTag, pos);
    var k := IndexFrom(t, endTag, n + |startTag|);
    FoundPair(t, pos, startTag, endTag);
    ScanFromTag(t, pos, n, k, startTag, endTag);
  }

  /** The scan from `pos` glues back into the template from `pos` on, and
      has the canonical shape. */
  lemma {:induction false} ScanFromSplits(t: string, pos: nat, startTag: string, endTag: string)
    requires |startTag| + |endTag| > 0 && pos <= |t|
    ensures Text(ScanFrom(t, pos, startTag, endTag), startTag, endTag) == Slice(t, pos, |t|)
    ensures Canonical(ScanFrom(t, pos, startTag, endTag), startTag, endTag)
    decreases |t| - pos
  {
    if IndexFrom(t, startTag, pos) < 0 {
      SplitsEnd(t, pos, startTag, endTag);
    } else if IndexFrom(t, endTag, IndexFrom(t, startTag, pos) + |startTag|) < 0 {
      SplitsOpen(t, pos, startTag, endTag);
    } else {
      ScanFromSplits(t, IndexFrom(t, endTag, IndexFrom(t, startTag, pos) + |startTag|) + |endTag|, startTag, endTag);
      SplitsTagged(t, pos, startTag, endTag);
    }
  }

  /** The scan of a template glues back into it, and has the canonical
      shape. */
  lemma ScanSplits(t: string, startTag: string, endTag: string)
    requires |startTag| + |endTag| > 0
    ensures Text(Scan(t, startTag, endTag), startTag, endTag) == t
    ensures Canonical(Scan(t, startTag, endTag), startTag, endTag)
  {
    ScanFromSplits(t, 0, startTag, endTag);
    SliceIs(t, 0, |t|);
    assert t[0..|t|] == t;
  }

  /** Where the rest of the template from `pos` is `x`, `p` and `y` with no
      `p` starting inside `x`, IndexFrom finds `p` right after `x`. */
  lemma CutAt(t: string, pos: nat, x: string, p: string, y: string)
    requires pos <= |t| && Slice(t, pos, |t|) == x + p + y && FirstAtEnd(x, p)
    ensures IndexFrom(t, p, pos) == pos + |x|
    ensures Slice(t, pos, pos + |x|) == x
    ensures Slice(t, pos + |x| + |p|, |t|) == y
  {
    var s := x + p + y;
    SliceAt(t, pos, |t|);
    assert forall k :: 0 <= k < |s| ==> t[pos + k] == s[k];
    assert MatchAt(t, p, pos + |x|) by {
      forall k | 0 <= k < |p| ensures t[pos + |x| + k] == p[k] {
        assert t[pos + (|x| + k)] == s[|x| + k];
      }
    }
    forall j | pos <= j < pos + |x| ensures !MatchAt(t, p, j) {
      if MatchAt(t, p, j) {
        assert MatchAt(x + p, p, j - pos) by {
          forall k | 0 <= k < |p| ensures (x + p)[j - pos + k] == p[k] {
            assert t[pos + (j - pos + k)] == s[j - pos + k];
          }
        }
        assert false;
      }
    }
    IndexFromIs(t, p, pos, pos + |x|);
    SliceAt(t, pos, pos + |x|);
    assert Slice(t, pos, pos + |x|) == x by {
      forall k | 0 <= k < |x| ensures Slice(t, pos, pos + |x|)[k] == x[k] {
        assert t[pos + k] == s[k];
      }
    }
    SliceAt(t, pos + |x| + |p|, |t|);
    assert Slice(t, pos + |x| + |p|, |t|) == y by {
      forall k | 0 <= k < |y| ensures Slice(t, pos + |x| + |p|, |t|)[k] == y[k] {
        assert t[pos + (|x| + |p| + k)] == s[|x| + |p| + k];
      }
    }
  }

  /** Where IndexFrom finds `p` from `pos`, the rest of the template from
      `pos` holds it at the same place. */
  lemma FoundInRest(t: string, pos: nat, p: string)
    requires pos <= |t|
    ensures IndexFrom(t, p, pos) >= 0 ==> MatchAt(Slice(t, pos, |t|), p, IndexFrom(t, p, pos) - pos)
  {
    IndexFromFirst(t, p, pos);
    var n := IndexFrom(t, p, pos);
    if n >= 0 {
      MatchInSlice(t, pos, |t|, p, n - pos);
    }
  }

  /** Where the rest of the template from `pos` is free of `p`, IndexFrom
      finds none. */
  lemma NoneAt(t: string, pos: nat, p: string)
    requires pos <= |t| && Free(Slice(t, pos, |t|), p)
    ensures IndexFrom(t, p, pos) < 0
  {
    FoundInRest(t, pos, p);
  }

  /** Where the template from `pos` is a literal, a start tag, a tag, an end
      tag and `y`, IndexFrom finds the start tag after the literal and the
      end tag after the tag. */
  lemma TagFoundAt(x: string, raw: string, y: string, t: string, pos: nat, startTag: string, endTag: string)
    requires pos <= |t| && FirstAtEnd(x, startTag) && FirstAtEnd(raw, endTag)
    requires Slice(t, pos, |t|) == x + startTag + (raw + endTag + y)
    ensures IndexFrom(t, startTag, pos) == pos + |x|
    ensures IndexFrom(t, endTag, pos + |x| + |startTag|) == pos + |x| + |startTag| + |raw|
    ensures Slice(t, pos, pos + |x|) == x
    ensures Slice(t, pos + |x| + |startTag|, pos + |x| + |startTag| + |raw|) == raw
    ensures Slice(t, pos + |x| + |startTag| + |raw| + |endTag|, |t|) == y
  {
    CutAt(t, pos, x, startTag, raw + endTag + y);
    CutAt(t, pos + |x| + |startTag|, raw, endTag, y);
  }

  /** One tag of a canonical split that glues into the template from `pos`:
      ScanFrom finds the same literal and tag, and the rest of the split
      glues into the template after the end tag. */
  lemma TaggedAt(x: string, raw: string, y: string, t: string, pos: nat, startTag: string, endTag: string)
    requires |startTag| + |endTag| > 0 && pos <= |t|
    requires FirstAtEnd(x, startTag) && FirstAtEnd(raw, endTag)
    requires Slice(t, pos, |t|) == x + startTag + (raw + endTag + y)
    ensures pos + |x| + |startTag| + |raw| + |endTag| <= |t|
    ensures Slice(t, pos + |x| + |startTag| + |raw| + |endTag|, |t|) == y
    ensures ScanFrom(t, pos, startTag, endTag)
      == Tagged(x, raw, ScanFrom(t, pos + |x| + |startTag| + |raw| + |endTag|, startTag, endTag))
  {
    TagFoundAt(x, raw, y, t, pos, startTag, endTag);
    ScanFromTag(t, pos, pos + |x|, pos + |x| + |startTag| + |raw|, startTag, endTag);
  }

  /** ScanFrom is the only canonical split of the template from `pos` on. */
  lemma {:induction false} ScanFromUnique(sp: Split, t: string, pos: nat, startTag: string, endTag: string)
    requires |startTag| + |endTag| > 0 && pos <= |t|
    requires Canonical(sp, startTag, endTag) && Text(sp, startTag, endTag) == Slice(t, pos, |t|)
    ensures sp == ScanFrom(t, pos, startTag, endTag)
    decreases sp
  {
    match sp
    case Tail(x) =>
      NoneAt(t, pos, startTag);
      ScanFromEnd(t, pos, startTag, endTag);
    case Unclosed(x, y) =>
      CutAt(t, pos, x, startTag, y);
      NoneAt(t, pos + |x| + |startTag|, endTag);
      ScanFromOpen(t, pos, pos + |x|, startTag, endTag);
    case Tagged(x, raw, next) =>
      TaggedAt(x, raw, Text(next, startTag, endTag), t, pos, startTag, endTag);
      ScanFromUnique(next, t, pos + |x| + |startTag| + |raw| + |endTag|, startTag, endTag);
  }

  /** Scan is the only canonical split: any canonical split that glues back
      into `s` is Scan(s). */
  lemma ScanUnique(sp: Split, s: string, startTag: string, endTag: string)
    requires |startTag| + |endTag| > 0
    requires Canonical(sp, startTag, endTag) && Text(sp, startTag, endTag) == s
    ensures sp == Scan(s, startTag, endTag)
  {
    SliceIs(s, 0, |s|);
    assert s[0..|s|] == s;
    ScanFromUnique(sp, s, 0, startTag, endTag);
  }

  /** A template free of `startTag` scans into one literal. */
  lemma ScanLiteral(x: string, startTag: string, endTag: string)
    requires |startTag| + |endTag| > 0 && Free(x, startTag)
    ensures Scan(x, startTag, endTag) == Tail(x)
  {
    ScanUnique(Tail(x), x, startTag, endTag);
  }

  /** A literal free of `startTag`, a start tag and a rest free of `endTag`:
      the start tag is left unclosed. */
  lemma ScanUnclosed(x: string, y: string, startTag: string, endTag: string)
    requires |startTag| + |endTag| > 0
    requires FirstAtEnd(x, startTag) && Free(y, endTag)
    ensures Scan(x + startTag + y, startTag, endTag) == Unclosed(x, y)
  {
    ScanUnique(Unclosed(x, y), x + startTag + y, startTag, endTag);
  }

  /** A literal free of `startTag`, then a tag free of `endTag` closed by
      `endTag`: the scan is that tag followed by the scan of the rest. */
  lemma ScanTagged(x: string, raw: string, y: string, startTag: string, endTag: string)
    requires |startTag| + |endTag| > 0
    requires FirstAtEnd(x, startTag) && FirstAtEnd(raw, endTag)
    ensures Scan(x + startTag + (raw + endTag + y), startTag, endTag) == Tagged(x, raw, Scan(y, startTag, endTag))
  {
    ScanSplits(y, startTag, endTag);
    ScanUnique(Tagged(x, raw, Scan(y, startTag, endTag)), x + startTag + (raw + endTag + y), startTag, endTag);
  }

  /** The trimmed names of the closed tags, in order of appearance. */
  function Names(sp: Split): seq<string>
  {
    match sp
    case Tail(_) => []
    case Unclosed(_, _) => []
    case Tagged(_, raw, next) => [TrimSpace(raw)] + Names(next)
  }
}
