/**
  `highlightJSONKeys` of internal/ui/highlight.go: cut a line into "base" text
  and JSON keys, the keys being the leftmost non-overlapping matches of the
  regular expression `"[^"\\]*"\s*:` (Go's RE2 `\s` is `[\t\n\f\r ]`), and
  render each piece in its style.

  The regular expression is replaced by a direct scanner, `MatchEndAt`, proved
  to agree with a declarative reading of the pattern, `IsKeyMatch`.
*/
module Highlight {
  import opened Wrappers
  import opened Styles

  /** RE2's `\s`. */
  predicate IsSpace(c: char)
  {
    c == ' ' || c == '\t' || c == '\n' || c == '\r' || c as int == 12
  }

  /** `s[i..e]` is a match of `"[^"\\]*"\s*:`, with the closing quote at `q`. */
  ghost predicate IsKeyMatchVia(s: string, i: nat, q: nat, e: nat)
  {
    && i < q && q + 1 < e <= |s|
    && s[i] == '"' && s[q] == '"' && s[e - 1] == ':'
    && (forall k :: i < k < q ==> s[k] != '"' && s[k] != '\\')
    && (forall k :: q < k < e - 1 ==> IsSpace(s[k]))
  }

  ghost predicate IsKeyMatch(s: string, i: nat, e: nat)
  {
    exists q: nat :: IsKeyMatchVia(s, i, q, e)
  }

  /** First index at or after `k` holding a quote or a backslash, or `|s|`. */
  function ScanKeyBody(s: string, k: nat): (q: nat)
    requires k <= |s|
    ensures k <= q <= |s|
    ensures q < |s| ==> s[q] == '"' || s[q] == '\\'
    ensures forall j :: k <= j < q ==> s[j] != '"' && s[j] != '\\'
    decreases |s| - k
  {
    if k == |s| || s[k] == '"' || s[k] == '\\' then k else ScanKeyBody(s, k + 1)
  }

  /** First index at or after `k` that is not white space, or `|s|`. */
  function SkipSpace(s: string, k: nat): (j: nat)
    requires k <= |s|
    ensures k <= j <= |s|
    ensures j < |s| ==> !IsSpace(s[j])
    ensures forall m :: k <= m < j ==> IsSpace(s[m])
    decreases |s| - k
  {
    if k == |s| || !IsSpace(s[k]) then k else SkipSpace(s, k + 1)
  }

  /** The end of the match that starts at `i`, if one does. */
  function MatchEndAt(s: string, i: nat): (r: Option<nat>)
    ensures r.Some? ==> i < r.value <= |s|
  {
    if i < |s| && s[i] == '"' then
      var q := ScanKeyBody(s, i + 1);
      if q < |s| && s[q] == '"' then
        var k := SkipSpace(s, q + 1);
        if k < |s| && s[k] == ':' then Some(k + 1) else None
      else None
    else None
  }

  /** The scanner finds exactly the matches of the pattern: a match at `i` exists iff it reports one, and it ends where the scanner says. */
  lemma MatchEndAtIsTheMatch(s: string, i: nat, e: nat)
    ensures MatchEndAt(s, i) == Some(e) <==> IsKeyMatch(s, i, e)
  {
    if MatchEndAt(s, i) == Some(e) {
      var q := ScanKeyBody(s, i + 1);
      assert IsKeyMatchVia(s, i, q, e);
    }
    if IsKeyMatch(s, i, e) {
      var q: nat :| IsKeyMatchVia(s, i, q, e);
      var q' := ScanKeyBody(s, i + 1);
      var k := SkipSpace(s, q + 1);
    }
  }

  /** At a given position at most one match starts. */
  lemma MatchIsUnique(s: string, i: nat, e1: nat, e2: nat)
    requires IsKeyMatch(s, i, e1) && IsKeyMatch(s, i, e2)
    ensures e1 == e2
  {
    MatchEndAtIsTheMatch(s, i, e1);
    MatchEndAtIsTheMatch(s, i, e2);
  }

  /** Positions of the matches as `(start, end)` pairs, in order, none overlapping, none before `last`. */
  ghost predicate Ordered(s: string, ms: seq<(nat, nat)>, last: nat)
    decreases |ms|
  {
    |ms| == 0 || (last <= ms[0].0 < ms[0].1 <= |s| && Ordered(s, ms[1..], ms[0].1))
  }

  /** `FindAllStringIndex(s[from..], -1)`, in positions of `s`: leftmost first, resuming after each match. */
  function FindAll(s: string, from: nat): (ms: seq<(nat, nat)>)
    ensures Ordered(s, ms, from)
    decreases |s| - from
  {
    if from >= |s| then []
    else match MatchEndAt(s, from)
      case Some(e) => [(from, e)] + FindAll(s, e)
      case None => FindAll(s, from + 1)
  }

  /** Every position pair the search reports is a match the scanner finds. */
  lemma {:induction false} FindAllMatches(s: string, from: nat, k: nat)
    requires k < |FindAll(s, from)|
    ensures MatchEndAt(s, FindAll(s, from)[k].0) == Some(FindAll(s, from)[k].1)
    decreases |s| - from
  {
    var ms := FindAll(s, from);
    var r := MatchEndAt(s, from);
    if r.Some? {
      var rest := FindAll(s, r.value);
      if k > 0 {
        assert ms[k] == rest[k - 1];
        FindAllMatches(s, r.value, k - 1);
      }
    } else {
      FindAllMatches(s, from + 1, k);
    }
  }

  /** Where the search resumes before match `k` (or after the last match, for `k == |ms|`). */
  function GapStart(ms: seq<(nat, nat)>, k: nat, from: nat): nat
    requires k <= |ms|
  {
    if k == 0 then from else ms[k - 1].1
  }

  /** Where the gap before match `k` ends. */
  function GapEnd(ms: seq<(nat, nat)>, k: nat, n: nat): nat
    requires k <= |ms|
  {
    if k < |ms| then ms[k].0 else n
  }

  /** No match starts between `from` and the first match the search reports. */
  lemma {:induction false} NoMatchBeforeFirst(s: string, from: nat, p: nat)
    requires from <= p < GapEnd(FindAll(s, from), 0, |s|)
    ensures MatchEndAt(s, p).None?
    decreases |s| - from
  {
    if p != from {
      var r := MatchEndAt(s, from);
      assert r.None?;
      assert FindAll(s, from) == FindAll(s, from + 1);
      NoMatchBeforeFirst(s, from + 1, p);
    }
  }

  /** Leftmost-first: no match starts in any stretch that the search skipped over. */
  lemma {:induction false} FindAllIsLeftmost(s: string, from: nat, k: nat, p: nat)
    requires k <= |FindAll(s, from)|
    requires GapStart(FindAll(s, from), k, from) <= p < GapEnd(FindAll(s, from), k, |s|)
    ensures MatchEndAt(s, p).None?
    decreases |s| - from, k
  {
    var ms := FindAll(s, from);
    if k == 0 {
      NoMatchBeforeFirst(s, from, p);
    } else if MatchEndAt(s, from).Some? {
      var e := MatchEndAt(s, from).value;
      var rest := FindAll(s, e);
      assert ms == [(from, e)] + rest;
      assert GapStart(ms, k, from) == GapStart(rest, k - 1, e);
      assert GapEnd(ms, k, |s|) == GapEnd(rest, k - 1, |s|);
      FindAllIsLeftmost(s, e, k - 1, p);
    } else {
      assert ms == FindAll(s, from + 1);
      FindAllIsLeftmost(s, from + 1, k, p);
    }
  }

  lemma FindAllEmptyOnEmpty(from: nat)
    ensures FindAll("", from) == []
  {
  }

  // ---------------------------------------------------------------------
  // Segmentation

  /** The segments the loop emits for the matches `ms`, having copied `s` up to `last`. */
  function Build(s: string, ms: seq<(nat, nat)>, last: nat, base: Style, key: Style): seq<Segment>
    requires last <= |s|
    requires Ordered(s, ms, last)
    decreases |ms|
  {
    if |ms| == 0 then
      if last < |s| then [Base(base, s[last..])] else []
    else
      var start, end := ms[0].0, ms[0].1;
      Gap(s, last, start, base) + [Key(key, s[start..end])] + Build(s, ms[1..], end, base, key)
  }

  /** What `highlightJSONKeys(s, base, key)` writes, as styled segments: with the styling ignored, `s` itself. */
  function Highlighted(s: string, base: Style, key: Style): (r: seq<Segment>)
    ensures Texts(r) == s
  {
    BuildTexts(s, FindAll(s, 0), 0, base, key);
    Build(s, FindAll(s, 0), 0, base, key)
  }

  /** The `(start, end)` positions of the key segments, counting from `offset`. */
  function KeySpans(segs: seq<Segment>, offset: nat): seq<(nat, nat)>
  {
    if |segs| == 0 then []
    else
      var next := offset + |segs[0].text|;
      (if segs[0].Key? then [(offset, next)] else []) + KeySpans(segs[1..], next)
  }

  lemma {:induction false} KeySpansConcat(a: seq<Segment>, b: seq<Segment>, offset: nat)
    ensures KeySpans(a + b, offset) == KeySpans(a, offset) + KeySpans(b, offset + |Texts(a)|)
    decreases |a|
  {
    if |a| > 0 {
      var next := offset + |a[0].text|;
      var head := if a[0].Key? then [(offset, next)] else [];
      assert (a + b)[0] == a[0];
      assert (a + b)[1..] == a[1..] + b;
      KeySpansConcat(a[1..], b, next);
      assert KeySpans(a + b, offset) == head + KeySpans(a[1..] + b, next);
      assert KeySpans(a, offset) == head + KeySpans(a[1..], next);
      assert |Texts(a)| == |a[0].text| + |Texts(a[1..])|;
    } else {
      assert a + b == b;
    }
  }

  /** The gap segment written before a match: none, or one base segment holding `s[last..start]`. */
  function Gap(s: string, last: nat, start: nat, base: Style): (g: seq<Segment>)
    requires last <= start <= |s|
    ensures Texts(g) == s[last..start]
    ensures KeySpans(g, last) == []
  {
    if last < start then [Base(base, s[last..start])] else []
  }

  /** Concatenating the segment texts gives back the input from `last` on. */
  lemma {:induction false} BuildTexts(s: string, ms: seq<(nat, nat)>, last: nat, base: Style, key: Style)
    requires last <= |s| && Ordered(s, ms, last)
    ensures Texts(Build(s, ms, last, base, key)) == s[last..]
    decreases |ms|
  {
    if |ms| > 0 {
      var start, end := ms[0].0, ms[0].1;
      BuildStep(s, ms, last, base, key);
      var mid := [Key(key, s[start..end])];
      var rest := Build(s, ms[1..], end, base, key);
      BuildTexts(s, ms[1..], end, base, key);
      assert Texts(mid) == s[start..end];
      PiecesTexts(s, last, start, end, Gap(s, last, start, base), mid, rest);
    }
  }

  /** Three runs of segments spelling out consecutive stretches of `s` spell out their union. */
  lemma PiecesTexts(s: string, last: nat, start: nat, end: nat, pre: seq<Segment>, mid: seq<Segment>, rest: seq<Segment>)
    requires last <= start <= end <= |s|
    requires Texts(pre) == s[last..start] && Texts(mid) == s[start..end] && Texts(rest) == s[end..]
    ensures Texts(pre + mid + rest) == s[last..]
  {
    assert Texts(pre + mid) == s[last..end] by {
      TextsConcat(pre, mid);
      assert s[last..start] + s[start..end] == s[last..end];
    }
    assert Texts(pre + mid + rest) == s[last..] by {
      TextsConcat(pre + mid, rest);
      assert s[last..end] + s[end..] == s[last..];
    }
  }

  /** The key segments sit exactly at the matches, in order. */
  lemma {:induction false} BuildKeySpans(s: string, ms: seq<(nat, nat)>, last: nat, base: Style, key: Style)
    requires last <= |s| && Ordered(s, ms, last)
    ensures KeySpans(Build(s, ms, last, base, key), last) == ms
    decreases |ms|
  {
    if |ms| > 0 {
      var start, end := ms[0].0, ms[0].1;
      BuildStep(s, ms, last, base, key);
      var pre := Gap(s, last, start, base);
      var mid := [Key(key, s[start..end])];
      var rest := Build(s, ms[1..], end, base, key);
      KeySpansConcat(pre, mid, last);
      KeySpansConcat(pre + mid, rest, last);
      TextsConcat(pre, mid);
      assert Texts(mid) == s[start..end] + Texts([]);
      assert |Texts(pre + mid)| == end - last;
      assert KeySpans(mid, start) == [(start, end)];
      assert KeySpans(pre + mid, last) == [(start, end)];
      BuildKeySpans(s, ms[1..], end, base, key);
      assert KeySpans(rest, end) == ms[1..];
      assert [ms[0]] + ms[1..] == ms;
    }
  }

  /** Base segments are never empty, carry the base style, and are always followed by a key (or end the line); keys carry the key style. */
  ghost predicate WellFormed(segs: seq<Segment>, base: Style, key: Style)
  {
    && (forall i :: 0 <= i < |segs| && segs[i].Base? ==> segs[i].text != "" && segs[i].style == base)
    && (forall i :: 0 <= i < |segs| && segs[i].Key? ==> segs[i].style == key)
    && (forall i, j :: 0 <= i < j < |segs| && j == i + 1 && segs[i].Base? ==> segs[j].Key?)
  }

  /** Two well-formed runs join into one when the first does not end in a base segment. */
  lemma WellFormedConcat(a: seq<Segment>, b: seq<Segment>, base: Style, key: Style)
    requires WellFormed(a, base, key) && WellFormed(b, base, key)
    requires |a| > 0 && a[|a| - 1].Key?
    ensures WellFormed(a + b, base, key)
  {
    var out := a + b;
    forall i, j | 0 <= i < j < |out| && j == i + 1 && out[i].Base?
      ensures out[j].Key?
    {
      if i >= |a| {
        assert out[i] == b[i - |a|] && out[j] == b[j - |a|];
      } else {
        assert out[i] == a[i] && i < |a| - 1 && out[j] == a[j];
      }
    }
    forall i | 0 <= i < |out| && out[i].Base?
      ensures out[i].text != "" && out[i].style == base
    {
      if i >= |a| {
        assert out[i] == b[i - |a|];
      } else {
        assert out[i] == a[i];
      }
    }
    forall i | 0 <= i < |out| && out[i].Key?
      ensures out[i].style == key
    {
      if i >= |a| {
        assert out[i] == b[i - |a|];
      } else {
        assert out[i] == a[i];
      }
    }
  }

  lemma {:induction false} BuildWellFormed(s: string, ms: seq<(nat, nat)>, last: nat, base: Style, key: Style)
    requires last <= |s| && Ordered(s, ms, last)
    ensures WellFormed(Build(s, ms, last, base, key), base, key)
    ensures |ms| > 0 ==> Build(s, ms, last, base, key) != []
    decreases |ms|
  {
    if |ms| > 0 {
      var start, end := ms[0].0, ms[0].1;
      BuildStep(s, ms, last, base, key);
      var pre := Gap(s, last, start, base);
      var mid := [Key(key, s[start..end])];
      var rest := Build(s, ms[1..], end, base, key);
      BuildWellFormed(s, ms[1..], end, base, key);
      assert WellFormed(pre + mid, base, key) by {
        var pm := pre + mid;
        assert |pre| == 0 ==> pm == mid;
        assert |pre| == 1 ==> pm == [pre[0], mid[0]];
      }
      WellFormedConcat(pre + mid, rest, base, key);
    }
  }

  /**
    The properties of `highlightJSONKeys`: styling ignored, the output is the
    input; the key segments are exactly the leftmost matches; base segments are
    non-empty and never adjacent; and the two edge cases.
  */
  lemma HighlightedProperties(s: string, base: Style, key: Style)
    ensures Texts(Highlighted(s, base, key)) == s
    ensures KeySpans(Highlighted(s, base, key), 0) == FindAll(s, 0)
    ensures WellFormed(Highlighted(s, base, key), base, key)
    ensures s == "" ==> Highlighted(s, base, key) == []
    ensures s != "" && FindAll(s, 0) == [] ==> Highlighted(s, base, key) == [Base(base, s)]
  {
    BuildTexts(s, FindAll(s, 0), 0, base, key);
    BuildKeySpans(s, FindAll(s, 0), 0, base, key);
    BuildWellFormed(s, FindAll(s, 0), 0, base, key);
  }

  /** Every key segment is one match of the pattern. */
  lemma KeySegmentsAreMatches(s: string, base: Style, key: Style, k: nat)
    requires k < |KeySpans(Highlighted(s, base, key), 0)|
    ensures var span := KeySpans(Highlighted(s, base, key), 0)[k];
            IsKeyMatch(s, span.0, span.1)
  {
    HighlightedProperties(s, base, key);
    var span := FindAll(s, 0)[k];
    FindAllMatches(s, 0, k);
    MatchEndAtIsTheMatch(s, span.0, span.1);
  }

  /** One turn of the loop: the gap before the first match, then the match, then the rest. */
  lemma BuildStep(s: string, ms: seq<(nat, nat)>, last: nat, base: Style, key: Style)
    requires last <= |s| && Ordered(s, ms, last) && |ms| > 0
    ensures last <= ms[0].0 < ms[0].1 <= |s| && Ordered(s, ms[1..], ms[0].1)
    ensures Build(s, ms, last, base, key) ==
      Gap(s, last, ms[0].0, base) +
      [Key(key, s[ms[0].0..ms[0].1])] + Build(s, ms[1..], ms[0].1, base, key)
  {
  }

  /** The loop invariant of `HighlightJSONKeys` carried across one match. */
  lemma LoopStep(s: string, ms: seq<(nat, nat)>, i: nat, last: nat, base: Style, key: Style, out: seq<Segment>)
    requires i < |ms| && last <= |s| && Ordered(s, ms[i..], last)
    ensures last <= ms[i].0 < ms[i].1 <= |s| && Ordered(s, ms[i + 1..], ms[i].1)
    ensures out + Build(s, ms[i..], last, base, key) ==
      out + Gap(s, last, ms[i].0, base) + [Key(key, s[ms[i].0..ms[i].1])] + Build(s, ms[i + 1..], ms[i].1, base, key)
  {
    assert ms[i..][1..] == ms[i + 1..];
    BuildStep(s, ms[i..], last, base, key);
  }

  /**
    The loop of highlight.go:22-37: walk the match positions, writing the text
    since the previous match in the base style (when there is any), then the
    match in the key style, then the rest of the line.
  */
  method HighlightJSONKeys(s: string, base: Style, key: Style) returns (out: seq<Segment>)
    ensures out == Highlighted(s, base, key)
  {
    var locs := FindAll(s, 0);
    out := [];
    var last := 0;
    for i := 0 to |locs|
      invariant last <= |s|
      invariant Ordered(s, locs[i..], last)
      invariant out + Build(s, locs[i..], last, base, key) == Highlighted(s, base, key)
    {
      var start, end := locs[i].0, locs[i].1;
      ghost var before := out;
      LoopStep(s, locs, i, last, base, key, out);
      if last < start {
        out := out + [Base(base, s[last..start])];
      }
      out := out + [Key(key, s[start..end])];
      assert out == before + Gap(s, last, start, base) + [Key(key, s[start..end])];
      last := end;
    }
    assert locs[|locs|..] == [];
    if last < |s| {
      out := out + [Base(base, s[last..])];
    }
  }
}
