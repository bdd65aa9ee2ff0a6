/**
  `HighlightKeys` of internal/ui/common/prettyjson.go: every match of the
  pattern `"([^"]+)":` (a quote, one or more characters other than a quote, a
  quote, a colon) is replaced by the key style's rendering of the quoted key
  followed by the colon; all other text is copied. The styling is the
  rendering library's business and is the parameter `render`.

  Matches are found left to right and never overlap, as `ReplaceAllStringFunc`
  finds them; because the key cannot hold a quote, the match starting at a
  given quote is unique, so a scanner stands in for the regular expression.
*/
module PrettyJSON {
  import opened Wrappers

  /** The first quote at or after `k`, or the end of `s`. */
  function QuoteFrom(s: string, k: nat): (q: nat)
    requires k <= |s|
    ensures k <= q <= |s|
    ensures q < |s| ==> s[q] == '"'
    ensures forall j :: k <= j < q ==> s[j] != '"'
    decreases |s| - k
  {
    if k == |s| || s[k] == '"' then k else QuoteFrom(s, k + 1)
  }

  /** The end of the match of `"([^"]+)":` that starts at `i`, if there is one. */
  function MatchAt(s: string, i: nat): (r: Option<nat>)
    requires i <= |s|
    ensures r.Some? ==> i + 4 <= r.value <= |s|
  {
    if i < |s| && s[i] == '"' then
      var q := QuoteFrom(s, i + 1);
      if q > i + 1 && q + 1 < |s| && s[q + 1] == ':' then Some(q + 2) else None
    else None
  }

  /** `s[i..e]` is a match of the pattern: quote, a non-empty run free of quotes, quote, colon. */
  predicate IsMatch(s: string, i: nat, e: nat)
  {
    i + 4 <= e <= |s| && s[i] == '"' && s[e - 2] == '"' && s[e - 1] == ':' &&
    forall j :: i < j < e - 2 ==> s[j] != '"'
  }

  /** `MatchAt` finds exactly the matches of the pattern; hence the one at `i` is unique. */
  lemma MatchAtIsMatch(s: string, i: nat, e: nat)
    requires i <= |s|
    ensures MatchAt(s, i) == Some(e) <==> IsMatch(s, i, e)
  {
    if IsMatch(s, i, e) {
      var q := QuoteFrom(s, i + 1);
    }
  }

  /** The leftmost match in `m` at or after `from`: `FindStringSubmatch`. */
  function FirstMatch(m: string, from: nat): (r: Option<(nat, nat)>)
    requires from <= |m|
    ensures r.Some? ==> from <= r.value.0 && r.value.0 + 4 <= r.value.1 <= |m|
    decreases |m| - from
  {
    if from == |m| then None
    else match MatchAt(m, from)
      case Some(e) => Some((from, e))
      case None => FirstMatch(m, from + 1)
  }

  /**
    The replacement closure: match the pattern again inside the matched text
    and rebuild `"key":` with the key styled; with no sub-match, the text is
    kept as it was.
  */
  function Replacement(m: string, render: string -> string): (r: string)
    ensures FirstMatch(m, 0).None? ==> r == m
    ensures FirstMatch(m, 0).Some? ==> |r| > 0 && r[|r| - 1] == ':'
  {
    match FirstMatch(m, 0)
    case None => m
    case Some((i, e)) => render("\"" + m[i + 1..e - 2] + "\"") + ":"
  }

  /** The text from `from` on, every match replaced. */
  function Rewrite(s: string, from: nat, render: string -> string): string
    requires from <= |s|
    decreases |s| - from
  {
    if from == |s| then ""
    else match MatchAt(s, from)
      case Some(e) => Replacement(s[from..e], render) + Rewrite(s, e, render)
      case None => [s[from]] + Rewrite(s, from + 1, render)
  }

  /**
    `HighlightKeys`, prettyjson.go:25-35: the source read as characters and
    keys, every character copied and every key written rendered, quotes
    included, and followed by its colon.
  */
  function HighlightKeys(src: string, render: string -> string): (out: string)
    ensures out == Emit(Scan(src, 0), render)
  {
    RewriteEmitsScan(src, 0, render);
    Rewrite(src, 0, render)
  }

  // ---------------------------------------------------------------------
  // The source text as literal characters and keys

  /** What the scan sees: a character copied as it is, or the key of one match. */
  datatype Piece = Verbatim(c: char) | KeyText(key: string)

  /** The pieces of `s` from `from` on, matches taken left to right. */
  function Scan(s: string, from: nat): seq<Piece>
    requires from <= |s|
    decreases |s| - from
  {
    if from == |s| then []
    else match MatchAt(s, from)
      case Some(e) => [KeyText(s[from + 1..e - 2])] + Scan(s, e)
      case None => [Verbatim(s[from])] + Scan(s, from + 1)
  }

  /** The text the pieces came from. */
  function Raw(ps: seq<Piece>): string
  {
    if |ps| == 0 then ""
    else
      match ps[0]
      case Verbatim(c) => [c] + Raw(ps[1..])
      case KeyText(k) => "\"" + k + "\":" + Raw(ps[1..])
  }

  /** The text written for the pieces: characters as they are, each key rendered with its quotes and followed by the colon. */
  function Emit(ps: seq<Piece>, render: string -> string): string
  {
    if |ps| == 0 then ""
    else
      match ps[0]
      case Verbatim(c) => [c] + Emit(ps[1..], render)
      case KeyText(k) => render("\"" + k + "\"") + ":" + Emit(ps[1..], render)
  }

  lemma RawCons(p: Piece, ps: seq<Piece>)
    ensures Raw([p] + ps) == Raw([p]) + Raw(ps)
  {
    assert ([p] + ps)[1..] == ps;
    assert [p][1..] == [];
  }

  lemma EmitCons(p: Piece, ps: seq<Piece>, render: string -> string)
    ensures Emit([p] + ps, render) == Emit([p], render) + Emit(ps, render)
  {
    assert ([p] + ps)[1..] == ps;
    assert [p][1..] == [];
  }

  /** The scan takes the text apart without losing or reordering anything. */
  lemma {:induction false} ScanRaw(s: string, from: nat)
    requires from <= |s|
    ensures Raw(Scan(s, from)) == s[from..]
    decreases |s| - from
  {
    if from < |s| {
      match MatchAt(s, from)
      case Some(e) =>
        ScanRaw(s, e);
        RawCons(KeyText(s[from + 1..e - 2]), Scan(s, e));
        MatchAtIsMatch(s, from, e);
        assert s[from..] == "\"" + s[from + 1..e - 2] + "\":" + s[e..];
      case None =>
        ScanRaw(s, from + 1);
        RawCons(Verbatim(s[from]), Scan(s, from + 1));
        assert s[from..] == [s[from]] + s[from + 1..];
    }
  }

  /** Every key the scan finds is non-empty and free of quotes. */
  lemma {:induction false} ScanKeys(s: string, from: nat, t: nat)
    requires from <= |s| && t < |Scan(s, from)| && Scan(s, from)[t].KeyText?
    ensures |Scan(s, from)[t].key| > 0 && '"' !in Scan(s, from)[t].key
    decreases |s| - from
  {
    match MatchAt(s, from)
    case Some(e) =>
      if t > 0 {
        ScanKeys(s, e, t - 1);
      } else {
        MatchAtIsMatch(s, from, e);
        var k := s[from + 1..e - 2];
        assert forall j :: 0 <= j < |k| ==> k[j] == s[from + 1 + j];
      }
    case None =>
      ScanKeys(s, from + 1, t - 1);
  }

  /** Matching the matched text again finds the same key at its start: the `len(sub) < 2` fallback is never taken. */
  lemma ReplacementOfMatch(s: string, i: nat, e: nat, render: string -> string)
    requires i <= |s| && MatchAt(s, i) == Some(e)
    ensures FirstMatch(s[i..e], 0) == Some((0, e - i))
    ensures Replacement(s[i..e], render) == render("\"" + s[i + 1..e - 2] + "\"") + ":"
  {
    var m := s[i..e];
    MatchAtIsMatch(s, i, e);
    assert IsMatch(m, 0, e - i) by {
      assert forall j :: 0 < j < e - i - 2 ==> m[j] == s[i + j];
    }
    MatchAtIsMatch(m, 0, e - i);
    var k1, k2 := m[1..e - i - 2], s[i + 1..e - 2];
    assert |k1| == |k2|;
    forall j | 0 <= j < |k1|
      ensures k1[j] == k2[j]
    {
      assert k1[j] == m[j + 1] == s[i + 1 + j];
    }
    assert k1 == k2;
  }

  /** One match written as its piece. */
  lemma RewriteKeyStep(s: string, from: nat, e: nat, render: string -> string)
    requires from < |s| && MatchAt(s, from) == Some(e)
    requires Rewrite(s, e, render) == Emit(Scan(s, e), render)
    ensures Rewrite(s, from, render) == Emit(Scan(s, from), render)
  {
    var k := s[from + 1..e - 2];
    assert Scan(s, from) == [KeyText(k)] + Scan(s, e);
    ReplacementOfMatch(s, from, e, render);
    EmitCons(KeyText(k), Scan(s, e), render);
  }

  /** One character outside the matches written as it is. */
  lemma RewriteCharStep(s: string, from: nat, render: string -> string)
    requires from < |s| && MatchAt(s, from).None?
    requires Rewrite(s, from + 1, render) == Emit(Scan(s, from + 1), render)
    ensures Rewrite(s, from, render) == Emit(Scan(s, from), render)
  {
    assert Scan(s, from) == [Verbatim(s[from])] + Scan(s, from + 1);
    EmitCons(Verbatim(s[from]), Scan(s, from + 1), render);
  }

  /** The rewrite writes each piece of the scan: text outside matches unchanged and in order, every key rendered. */
  lemma {:induction false} RewriteEmitsScan(s: string, from: nat, render: string -> string)
    requires from <= |s|
    ensures Rewrite(s, from, render) == Emit(Scan(s, from), render)
    decreases |s| - from
  {
    if from < |s| {
      var m := MatchAt(s, from);
      if m.Some? {
        RewriteEmitsScan(s, m.value, render);
        RewriteKeyStep(s, from, m.value, render);
      } else {
        RewriteEmitsScan(s, from + 1, render);
        RewriteCharStep(s, from, render);
      }
    }
  }

  /** With an identity rendering the pieces are written back as they came. */
  lemma {:induction false} EmitIdentity(ps: seq<Piece>, render: string -> string)
    requires forall x {:trigger render(x)} :: render(x) == x
    ensures Emit(ps, render) == Raw(ps)
    decreases |ps|
  {
    if |ps| > 0 {
      EmitIdentity(ps[1..], render);
      match ps[0]
      case Verbatim(c) =>
      case KeyText(k) =>
        assert render("\"" + k + "\"") == "\"" + k + "\"";
    }
  }

  /** The whole of `HighlightKeys`: the text outside matches copied, each match `"k":` written as `render("\"k\"") + ":"`. */
  lemma HighlightKeysSpec(src: string, render: string -> string)
    ensures HighlightKeys(src, render) == Emit(Scan(src, 0), render)
    ensures Raw(Scan(src, 0)) == src
  {
    RewriteEmitsScan(src, 0, render);
    ScanRaw(src, 0);
  }

  /** With `render` the identity, `HighlightKeys` changes nothing. */
  lemma IdentityRenderKeepsText(src: string, render: string -> string)
    requires forall x {:trigger render(x)} :: render(x) == x
    ensures HighlightKeys(src, render) == src
  {
    HighlightKeysSpec(src, render);
    EmitIdentity(Scan(src, 0), render);
  }

  /** Text holding no match comes back unchanged. */
  lemma {:induction false} NoMatchIsFixed(t: string, from: nat, render: string -> string)
    requires from <= |t|
    requires forall i :: from <= i <= |t| ==> MatchAt(t, i).None?
    ensures Rewrite(t, from, render) == t[from..]
    decreases |t| - from
  {
    if from < |t| {
      NoMatchIsFixed(t, from + 1, render);
      assert t[from..] == [t[from]] + t[from + 1..];
    }
  }

  /**
    Idempotence, which the documentation claims: it holds whenever the key
    style's rendering leaves no new match in the output (as with terminal
    escapes that come between the closing quote and the colon).
  */
  lemma IdempotentWhenRenderingHidesKeys(src: string, render: string -> string)
    requires forall i :: 0 <= i <= |HighlightKeys(src, render)| ==> MatchAt(HighlightKeys(src, render), i).None?
    ensures HighlightKeys(HighlightKeys(src, render), render) == HighlightKeys(src, render)
  {
    var out := HighlightKeys(src, render);
    NoMatchIsFixed(out, 0, render);
  }
}
