/**
  `store` of internal/app/store.go: the display lines of every message one
  after another, and for each message the entry recording its range
  `[start, end)` in that list. The pretty-printed text of a message is an
  explicit input, and the key style's rendering is the parameter `render`.
*/
module AppStore {
  import opened Wrappers
  import opened Styles
  import opened Telemetry
  import Text
  import AppItem

  /** One message and the range of global lines holding its display lines. */
  datatype Entry = Entry(msg: Message, start: int, end: int, lines: seq<string>)

  predicate Holds(e: Entry, line: int)
  {
    e.start <= line < e.end
  }

  /**
    The entries tile the line list: the first starts at 0, each ends where the
    next starts, the last ends at the end; every entry is non-empty and its
    lines are the slice it covers; no line holds a line break.
  */
  predicate Contiguous(entries: seq<Entry>, lines: seq<string>)
  {
    (|entries| == 0 ==> |lines| == 0) &&
    (|entries| > 0 ==> entries[0].start == 0 && entries[|entries| - 1].end == |lines|) &&
    (forall i :: 0 <= i < |entries| - 1 ==> entries[i].end == entries[i + 1].start) &&
    (forall i :: 0 <= i < |entries| ==>
       0 <= entries[i].start < entries[i].end <= |lines| &&
       lines[entries[i].start..entries[i].end] == entries[i].lines) &&
    (forall i :: 0 <= i < |lines| ==> '\n' !in lines[i])
  }

  /** The search of `messageForLine` over the first `k` entries, last to first. */
  function LastHolding(entries: seq<Entry>, line: int, k: nat): (r: Option<nat>)
    requires k <= |entries|
    ensures r.Some? ==> r.value < k && Holds(entries[r.value], line)
    ensures r.Some? ==> forall j :: r.value < j < k ==> !Holds(entries[j], line)
    ensures r.None? ==> forall j :: 0 <= j < k ==> !Holds(entries[j], line)
  {
    if k == 0 then None
    else if Holds(entries[k - 1], line) then Some(k - 1)
    else LastHolding(entries, line, k - 1)
  }

  /** An entry ends no later than any later entry starts. */
  lemma {:induction false} EndsBeforeLater(entries: seq<Entry>, lines: seq<string>, i: nat, j: nat)
    requires Contiguous(entries, lines) && i < j < |entries|
    ensures entries[i].end <= entries[j].start
    decreases j - i
  {
    if i + 1 < j {
      EndsBeforeLater(entries, lines, i + 1, j);
      assert entries[i + 1].start < entries[i + 1].end;
    }
  }

  /** At most one entry holds a given line. */
  lemma HolderIsUnique(entries: seq<Entry>, lines: seq<string>, line: int, i: nat, j: nat)
    requires Contiguous(entries, lines) && i < |entries| && j < |entries|
    requires Holds(entries[i], line) && Holds(entries[j], line)
    ensures i == j
  {
    if i < j {
      EndsBeforeLater(entries, lines, i, j);
    } else if j < i {
      EndsBeforeLater(entries, lines, j, i);
    }
  }

  lemma {:induction false} HolderFrom(entries: seq<Entry>, lines: seq<string>, line: int, k: nat) returns (i: nat)
    requires Contiguous(entries, lines) && k < |entries| && entries[k].start <= line < |lines|
    ensures k <= i < |entries| && Holds(entries[i], line)
    decreases |entries| - k
  {
    if line < entries[k].end {
      i := k;
    } else {
      assert k + 1 < |entries|;
      i := HolderFrom(entries, lines, line, k + 1);
    }
  }

  /** Over a tiled list, the search finds an entry exactly for the lines of the list, and that entry is the only one holding the line. */
  lemma LastHoldingOfContiguous(entries: seq<Entry>, lines: seq<string>, line: int)
    requires Contiguous(entries, lines)
    ensures LastHolding(entries, line, |entries|).Some? <==> 0 <= line < |lines|
    ensures forall j :: 0 <= j < |entries| && Holds(entries[j], line) ==> LastHolding(entries, line, |entries|) == Some(j)
  {
    var r := LastHolding(entries, line, |entries|);
    if 0 <= line < |lines| {
      var i := HolderFrom(entries, lines, line, 0);
    }
    forall j | 0 <= j < |entries| && Holds(entries[j], line)
      ensures r == Some(j)
    {
      HolderIsUnique(entries, lines, line, r.value, j);
    }
  }

  /** Appending one message's lines keeps the entries tiling the list. */
  lemma AppendKeepsContiguous(entries: seq<Entry>, lines: seq<string>, msg: Message, ls: seq<string>)
    requires Contiguous(entries, lines)
    requires |ls| >= 1 && forall i :: 0 <= i < |ls| ==> '\n' !in ls[i]
    ensures Contiguous(entries + [Entry(msg, |lines|, |lines| + |ls|, ls)], lines + ls)
  {
    var es := entries + [Entry(msg, |lines|, |lines| + |ls|, ls)];
    var all := lines + ls;
    assert all[|lines|..|lines| + |ls|] == ls;
    forall i | 0 <= i < |entries|
      ensures all[es[i].start..es[i].end] == es[i].lines
    {
      assert all[es[i].start..es[i].end] == lines[es[i].start..es[i].end];
    }
    forall i | 0 <= i < |all|
      ensures '\n' !in all[i]
    {
      if i >= |lines| {
        assert all[i] == ls[i - |lines|];
      }
    }
  }

  /** The style of line `i` while paused with the cursor on line `c`. */
  function LineStyle(entries: seq<Entry>, i: int, c: int): (s: Style)
    ensures s == AppCursorStyle <==> i == c
    ensures s == AppMessageStyle ==> exists k :: 0 <= k < |entries| && Holds(entries[k], c) && Holds(entries[k], i)
    ensures s == AppCursorStyle || s == AppMessageStyle || s == Unstyled
  {
    var owner := LastHolding(entries, c, |entries|);
    if i == c then AppCursorStyle
    else if owner.Some? && Holds(entries[owner.value], i) then AppMessageStyle
    else Unstyled
  }

  /** The first `n` lines, each styled, with a line break before every line but the first. */
  function Painted(lines: seq<string>, entries: seq<Entry>, c: int, n: nat): (r: seq<Segment>)
    requires n <= |lines|
    ensures |r| == if n == 0 then 0 else 2 * n - 1
    ensures forall k :: 0 <= k < |r| ==> r[k].Base?
  {
    if n == 0 then []
    else
      Painted(lines, entries, c, n - 1) +
      (if n > 1 then [Base(Unstyled, "\n")] else []) +
      [Base(LineStyle(entries, n - 1, c), lines[n - 1])]
  }

  /** What `render(paused, c)` writes. */
  function Rendered(lines: seq<string>, entries: seq<Entry>, paused: bool, c: int): (r: seq<Segment>)
    ensures forall k :: 0 <= k < |r| ==> r[k].Base?
    ensures !paused ==> |r| == 1 && r[0].style == Unstyled
  {
    if !paused then [Base(Unstyled, Text.Join(lines, '\n'))] else Painted(lines, entries, c, |lines|)
  }

  /** Styling aside, the painted lines are the lines joined with line breaks. */
  lemma {:induction false} PaintedTexts(lines: seq<string>, entries: seq<Entry>, c: int, n: nat)
    requires n <= |lines|
    ensures Texts(Painted(lines, entries, c, n)) == Text.Join(lines[..n], '\n')
    decreases n
  {
    if n > 0 {
      PaintedTexts(lines, entries, c, n - 1);
      var sep: seq<Segment> := if n > 1 then [Base(Unstyled, "\n")] else [];
      var last := [Base(LineStyle(entries, n - 1, c), lines[n - 1])];
      TextsConcat(Painted(lines, entries, c, n - 1) + sep, last);
      TextsConcat(Painted(lines, entries, c, n - 1), sep);
      assert lines[..n] == lines[..n - 1] + [lines[n - 1]];
      if n > 1 {
        Text.JoinSnoc(lines[..n - 1], lines[n - 1], '\n');
      }
    }
  }

  /** Line `i` is segment `2i`, each line break between lines is the segment before it. */
  lemma {:induction false} PaintedShape(lines: seq<string>, entries: seq<Entry>, c: int, n: nat, i: nat)
    requires 0 < n <= |lines| && i < n
    ensures |Painted(lines, entries, c, n)| == 2 * n - 1
    ensures Painted(lines, entries, c, n)[2 * i] == Base(LineStyle(entries, i, c), lines[i])
    ensures i > 0 ==> Painted(lines, entries, c, n)[2 * i - 1] == Base(Unstyled, "\n")
    decreases n
  {
    if n > 1 {
      if i < n - 1 {
        PaintedShape(lines, entries, c, n - 1, i);
      } else {
        PaintedShape(lines, entries, c, n - 1, 0);
      }
    }
  }

  /** Styling aside, `render` writes the content whether paused or not: in particular `render(false, c)` is `content()`. */
  lemma RenderedIsContent(lines: seq<string>, entries: seq<Entry>, paused: bool, c: int)
    ensures Texts(Rendered(lines, entries, paused, c)) == Text.Join(lines, '\n')
    ensures !paused ==> Rendered(lines, entries, paused, c) == [Base(Unstyled, Text.Join(lines, '\n'))]
  {
    if paused {
      PaintedTexts(lines, entries, c, |lines|);
      assert lines[..|lines|] == lines;
    } else {
      assert Texts([Base(Unstyled, Text.Join(lines, '\n'))]) == Text.Join(lines, '\n') + Texts([]);
    }
  }

  /**
    Over a tiled list, the cursor line gets the cursor style, the other lines
    of the cursor's entry the message style, and every other line none; a
    cursor off the list styles nothing.
  */
  lemma LineStyleCases(entries: seq<Entry>, lines: seq<string>, i: int, c: int)
    requires Contiguous(entries, lines) && 0 <= i < |lines|
    ensures LineStyle(entries, i, c) == AppCursorStyle <==> i == c
    ensures LineStyle(entries, i, c) == AppMessageStyle <==>
              i != c && exists k :: 0 <= k < |entries| && Holds(entries[k], c) && Holds(entries[k], i)
    ensures !(0 <= c < |lines|) ==> LineStyle(entries, i, c) == Unstyled
  {
    LastHoldingOfContiguous(entries, lines, c);
  }

  class Store {
    var entries: seq<Entry>
    var lines: seq<string>

    /** `newStore`, store.go:26. */
    constructor ()
      ensures entries == [] && lines == []
      ensures Contiguous(entries, lines)
    {
      entries, lines := [], [];
    }

    /**
      `append`, store.go:28-33: the message's lines go at the end of the list
      and a new entry records their range; earlier lines and entries stay.
    */
    method Append(msg: Message, pretty: string, render: string -> string)
      modifies this
      ensures lines == old(lines) + AppItem.NewItem(msg, pretty, render).lines
      ensures entries == old(entries) +
        [Entry(msg, |old(lines)|, |old(lines)| + |AppItem.NewItem(msg, pretty, render).lines|, AppItem.NewItem(msg, pretty, render).lines)]
      ensures Contiguous(old(entries), old(lines)) ==> Contiguous(entries, lines)
    {
      var ls := Text.Split(AppItem.NewItem(msg, pretty, render).styled, '\n');
      var start := |lines|;
      if Contiguous(entries, lines) {
        AppendKeepsContiguous(entries, lines, msg, ls);
      }
      lines := lines + ls;
      entries := entries + [Entry(msg, start, start + |ls|, ls)];
    }

    /** `content`, store.go:35-37: the lines joined by line breaks, which split back into the lines of a tiled list. */
    function Content(): (s: string)
      reads this
      ensures |lines| == 0 ==> s == ""
      ensures Contiguous(entries, lines) && |lines| > 0 ==> Text.Split(s, '\n') == lines
    {
      if Contiguous(entries, lines) && |lines| > 0 then
        Text.SplitJoin(lines, '\n');
        Text.Join(lines, '\n')
      else Text.Join(lines, '\n')
    }

    /** `messageForLine`, store.go:40-48: the last entry holding `line`, searched from the back. */
    method MessageForLine(line: int) returns (r: Option<nat>)
      ensures r == LastHolding(entries, line, |entries|)
    {
      var i := |entries|;
      while i > 0
        invariant 0 <= i <= |entries|
        invariant LastHolding(entries, line, |entries|) == LastHolding(entries, line, i)
      {
        i := i - 1;
        var e := entries[i];
        if line >= e.start && line < e.end {
          return Some(i);
        }
      }
      return None;
    }

    /** `render`, store.go:57-76. */
    method Render(paused: bool, cursorLine: int) returns (out: seq<Segment>)
      ensures out == Rendered(lines, entries, paused, cursorLine)
    {
      if !paused {
        return [Base(Unstyled, Content())];
      }
      out := [];
      for i := 0 to |lines|
        invariant out == Painted(lines, entries, cursorLine, i)
      {
        if i > 0 {
          out := out + [Base(Unstyled, "\n")];
        }
        var e := MessageForLine(cursorLine);
        if i == cursorLine {
          out := out + [Base(AppCursorStyle, lines[i])];
        } else if e.Some? && i >= entries[e.value].start && i < entries[e.value].end {
          out := out + [Base(AppMessageStyle, lines[i])];
        } else {
          out := out + [Base(Unstyled, lines[i])];
        }
      }
    }
  }

  /** The content of a non-empty store splits back into its lines. */
  lemma ContentSplitsIntoLines(entries: seq<Entry>, lines: seq<string>)
    requires Contiguous(entries, lines) && |entries| > 0
    ensures Text.Split(Text.Join(lines, '\n'), '\n') == lines
  {
    assert entries[0].start < entries[0].end <= |lines|;
    Text.SplitJoin(lines, '\n');
  }
}
