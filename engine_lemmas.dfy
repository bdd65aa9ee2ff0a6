/**
  What the ui state machine promises: how the cursor moves and is clamped,
  how it is kept visible, what pausing does, that messages are dropped while
  paused, that yank copies the cursor's message, and an invariant every step
  keeps: while paused, the cursor is on a line of the active list (when it has
  any) and the cursor's message is the one owning that line.
*/
module EngineLemmas {
  import opened Wrappers
  import opened Styles
  import opened Telemetry
  import opened LineIndex
  import opened UiStore
  import opened Viewports
  import opened Engine
  import Text

  // ---------------------------------------------------------------------
  // cursorUp / cursorDown

  /**
    `cursorUp` does nothing at line 0 and otherwise moves up exactly one line;
    it scrolls only when the new line is within the buffer of the top edge and
    the viewport is not at the top. When in addition the offset is at most the
    largest one, it scrolls by exactly one row; an offset left past the largest
    one (a resize keeps the offset) is clamped back by the library instead.
  */
  lemma CursorUpMovesOneLine(u: Ui)
    ensures u.line == 0 ==> CursorUp(u) == u
    ensures u.line != 0 ==> CursorUp(u).line == u.line - 1
    ensures CursorUp(u) == u.(line := CursorUp(u).line, vp := u.vp.(yOffset := CursorUp(u).vp.yOffset))
    ensures CursorUp(u).vp.yOffset != u.vp.yOffset ==>
      u.line != 0 && u.line - 1 < u.vp.yOffset + CursorBuffer && !AtTop(u.vp)
    ensures u.line != 0 && u.line - 1 < u.vp.yOffset + CursorBuffer && !AtTop(u.vp) &&
            u.vp.yOffset <= MaxYOffset(u.vp)
            ==> CursorUp(u).vp.yOffset == u.vp.yOffset - 1
  {
  }

  /**
    `cursorDown` does nothing on the last line (or past it) and otherwise
    moves down exactly one line; it scrolls only when the new line is within
    the buffer of the bottom edge and the viewport is not at the bottom. When
    in addition the offset is not negative, it scrolls by exactly one row.
  */
  lemma CursorDownMovesOneLine(u: Ui)
    ensures u.line >= TotalLines(u) - 1 ==> CursorDown(u) == u
    ensures u.line < TotalLines(u) - 1 ==> CursorDown(u).line == u.line + 1
    ensures CursorDown(u) == u.(line := CursorDown(u).line, vp := u.vp.(yOffset := CursorDown(u).vp.yOffset))
    ensures CursorDown(u).vp.yOffset != u.vp.yOffset ==>
      u.line < TotalLines(u) - 1 &&
      u.line + 1 >= u.vp.yOffset + VisibleLineCount(u.vp) - CursorBuffer && !AtBottom(u.vp)
    ensures u.line < TotalLines(u) - 1 &&
            u.line + 1 >= u.vp.yOffset + VisibleLineCount(u.vp) - CursorBuffer && !AtBottom(u.vp) &&
            0 <= u.vp.yOffset
            ==> CursorDown(u).vp.yOffset == u.vp.yOffset + 1
  {
  }

  /** Starting on a line of the list, both moves stay on the list; down never passes the last line. */
  lemma CursorMovesStayInRange(u: Ui)
    ensures 0 <= u.line < TotalLines(u) ==> 0 <= CursorUp(u).line < TotalLines(CursorUp(u))
    ensures 0 <= u.line < TotalLines(u) ==> 0 <= CursorDown(u).line < TotalLines(CursorDown(u))
    ensures u.line <= TotalLines(u) - 1 ==> CursorDown(u).line <= TotalLines(u) - 1
    ensures TotalLines(CursorUp(u)) == TotalLines(u) && TotalLines(CursorDown(u)) == TotalLines(u)
  {
  }

  /** One press of `k` with no scrolling by the viewport. */
  function Press(k: Key): Ui -> Ui
  {
    u => Update(u, KeyPress(k), None).0
  }

  /** `f` applied `n` times. */
  function Iterate(f: Ui -> Ui, u: Ui, n: nat): Ui
    decreases n
  {
    if n == 0 then u else f(Iterate(f, u, n - 1))
  }

  /** An arrow key while paused only navigates. */
  lemma ArrowNavigates(u: Ui, up: bool)
    requires u.paused
    ensures Update(u, KeyPress(if up then UpKey else DownKey), None).0 == Navigate(u, up)
  {
  }

  /** Navigating down from a line of the list: one line down unless on the last line. */
  lemma NavigateDown(u: Ui)
    requires u.paused && 0 <= u.line < TotalLines(u)
    ensures var r := Navigate(u, false);
            r.paused && TotalLines(r) == TotalLines(u) &&
            r.line == if u.line < TotalLines(u) - 1 then u.line + 1 else u.line
  {
    var d := CursorDown(u);
    CursorMovesStayInRange(u);
    EnsureCursorVisibleCases(d);
    SyncCursor(EnsureCursorVisible(d));
  }

  /** Navigating up from a line of the list: one line up unless on the first line. */
  lemma NavigateUp(u: Ui)
    requires u.paused && 0 <= u.line < TotalLines(u)
    ensures var r := Navigate(u, true);
            r.paused && TotalLines(r) == TotalLines(u) &&
            r.line == if u.line > 0 then u.line - 1 else u.line
  {
    var d := CursorUp(u);
    CursorMovesStayInRange(u);
    EnsureCursorVisibleCases(d);
    SyncCursor(EnsureCursorVisible(d));
  }

  /** A step that moves a paused cursor on the list by `dir` (1 or -1), stopping at the first and last lines. */
  ghost predicate MovesBy(f: Ui -> Ui, dir: int)
  {
    forall x: Ui {:trigger f(x)} :: x.paused && 0 <= x.line < TotalLines(x) ==>
      && f(x).paused && TotalLines(f(x)) == TotalLines(x)
      && f(x).line == Clamp(x.line + dir, 0, TotalLines(x) - 1)
  }

  /** Repeating such a step `n` times moves by `n * dir`, clamped onto the list. */
  lemma {:induction false} IterateMoves(f: Ui -> Ui, dir: int, u: Ui, n: nat)
    requires MovesBy(f, dir) && (dir == 1 || dir == -1)
    requires u.paused && 0 <= u.line < TotalLines(u)
    ensures var r := Iterate(f, u, n);
            r.paused && TotalLines(r) == TotalLines(u) && r.line == Clamp(u.line + n * dir, 0, TotalLines(u) - 1)
    decreases n
  {
    if n > 0 {
      IterateMoves(f, dir, u, n - 1);
      var p := Iterate(f, u, n - 1);
      assert n * dir == (n - 1) * dir + dir;
      assert f(p).line == Clamp(p.line + dir, 0, TotalLines(u) - 1);
    }
  }

  /** One press of the down key while paused moves the cursor down one line, clamped onto the list. */
  lemma PressDownMoves(x: Ui)
    requires x.paused && 0 <= x.line < TotalLines(x)
    ensures Press(DownKey)(x).paused && TotalLines(Press(DownKey)(x)) == TotalLines(x)
    ensures Press(DownKey)(x).line == Clamp(x.line + 1, 0, TotalLines(x) - 1)
  {
    ArrowNavigates(x, false);
    NavigateDown(x);
  }

  /** The down key, as a step on paused models, moves by one line. */
  lemma DownMovesByOne()
    ensures MovesBy(Press(DownKey), 1)
  {
    forall x: Ui | x.paused && 0 <= x.line < TotalLines(x)
      ensures Press(DownKey)(x).paused && TotalLines(Press(DownKey)(x)) == TotalLines(x)
      ensures Press(DownKey)(x).line == Clamp(x.line + 1, 0, TotalLines(x) - 1)
    {
      PressDownMoves(x);
    }
  }

  /** Repeated down presses while paused stop on the last line: `n` presses from line `l` end on `min(l + n, total - 1)`. */
  lemma RepeatedDown(u: Ui, n: nat)
    requires u.paused && 0 <= u.line < TotalLines(u)
    ensures Iterate(Press(DownKey), u, n).paused
    ensures Iterate(Press(DownKey), u, n).line == if u.line + n < TotalLines(u) - 1 then u.line + n else TotalLines(u) - 1
  {
    DownMovesByOne();
    IterateMoves(Press(DownKey), 1, u, n);
  }

  /** One press of the up key while paused moves the cursor up one line, clamped onto the list. */
  lemma PressUpMoves(x: Ui)
    requires x.paused && 0 <= x.line < TotalLines(x)
    ensures Press(UpKey)(x).paused && TotalLines(Press(UpKey)(x)) == TotalLines(x)
    ensures Press(UpKey)(x).line == Clamp(x.line - 1, 0, TotalLines(x) - 1)
  {
    ArrowNavigates(x, true);
    NavigateUp(x);
  }

  /** The up key, as a step on paused models, moves back by one line. */
  lemma UpMovesByOne()
    ensures MovesBy(Press(UpKey), -1)
  {
    forall x: Ui | x.paused && 0 <= x.line < TotalLines(x)
      ensures Press(UpKey)(x).paused && TotalLines(Press(UpKey)(x)) == TotalLines(x)
      ensures Press(UpKey)(x).line == Clamp(x.line - 1, 0, TotalLines(x) - 1)
    {
      PressUpMoves(x);
    }
  }

  /** Repeated up presses while paused stop on the first line: `n` presses from line `l` end on `max(l - n, 0)`. */
  lemma RepeatedUp(u: Ui, n: nat)
    requires u.paused && 0 <= u.line < TotalLines(u)
    ensures Iterate(Press(UpKey), u, n).paused
    ensures Iterate(Press(UpKey), u, n).line == if u.line - n > 0 then u.line - n else 0
  {
    UpMovesByOne();
    IterateMoves(Press(UpKey), -1, u, n);
  }

  /** Starting at line 5 of 10, six presses of the down key stop at line 9. */
  lemma SixDownPressesFromFiveOfTen(u: Ui)
    requires u.paused && TotalLines(u) == 10 && u.line == 5
    ensures Iterate(Press(DownKey), u, 6).line == 9
  {
    RepeatedDown(u, 6);
  }

  // ---------------------------------------------------------------------
  // ensureCursorVisible

  /**
    `ensureCursorVisible` is a no-op when not paused or when the cursor is in
    the window; otherwise it asks for the cursor's line as the offset (cursor
    above the window) or for the offset that puts it on the last row (cursor
    below). Only the offset changes.
  */
  lemma EnsureCursorVisibleCases(u: Ui)
    ensures !u.paused || u.vp.yOffset <= u.line < u.vp.yOffset + u.vp.height ==> EnsureCursorVisible(u) == u
    ensures u.paused && u.line < u.vp.yOffset ==> EnsureCursorVisible(u).vp == SetYOffset(u.vp, u.line)
    ensures u.paused && u.vp.yOffset <= u.line && u.line >= u.vp.yOffset + u.vp.height ==>
      EnsureCursorVisible(u).vp == SetYOffset(u.vp, u.line - u.vp.height + 1)
    ensures EnsureCursorVisible(u) == u.(vp := u.vp.(yOffset := EnsureCursorVisible(u).vp.yOffset))
  {
  }

  /** Afterwards the cursor is on screen, whenever the content is long enough for some offset to show it. */
  lemma CursorVisibleAfterwards(u: Ui)
    requires u.paused && u.vp.height > 0 && 0 <= u.vp.yOffset
    requires 0 <= u.line < MaxYOffset(u.vp) + u.vp.height
    ensures var v := EnsureCursorVisible(u).vp;
            v.yOffset <= u.line < v.yOffset + v.height
  {
  }

  // ---------------------------------------------------------------------
  // syncViewport

  /**
    `syncViewport` pulls the cursor back to the last line (to -1 when the list
    is empty) and leaves it alone otherwise; while paused the cursor's message
    becomes the message owning the cursor's line (none when the cursor is off
    the list), and it is none while live.
  */
  lemma SyncCursor(u: Ui)
    ensures var r := Sync(u);
            && r.line <= TotalLines(u) - 1
            && (u.line <= TotalLines(u) - 1 ==> r.line == u.line)
            && (u.line > TotalLines(u) - 1 ==> r.line == TotalLines(u) - 1)
            && (!u.paused ==> r.msg == None)
            && (u.paused ==> r.msg == CursorMessage(ActiveMessages(r), r.line))
            && ActiveMessages(r) == ActiveMessages(u) && r.paused == u.paused
  {
  }

  /** While paused, the message `syncViewport` picks holds the cursor's line. */
  lemma SyncPicksOwner(u: Ui)
    requires u.paused && 0 <= Sync(u).line < TotalLines(u)
    ensures var r := Sync(u);
            var msgs := ActiveMessages(u);
            var i := OwnerIndex(msgs, r.line);
            i < |msgs| && r.msg == Some(msgs[i]) && Start(msgs, i) <= r.line < Start(msgs, i + 1)
  {
    OwnerIndexContains(ActiveMessages(u), Sync(u).line);
  }

  // ---------------------------------------------------------------------
  // What syncViewport draws, line by line

  /**
    The text of global line `g` as drawn: padded to the viewport's width while
    paused when it is the cursor line or another line of the cursor's message.
  */
  function ShownLine(msgs: seq<Message>, paused: bool, cur: int, width: int, g: nat): string
    requires g < |Flatten(msgs)|
  {
    var l := Flatten(msgs)[g];
    if paused && (g == cur || InCursorMessage(msgs, cur, g)) then Pad(l, width) else l
  }

  /** Every line of the list, as drawn. */
  function ShownLines(msgs: seq<Message>, paused: bool, cur: int, width: int): seq<string>
  {
    seq(|Flatten(msgs)|, g requires 0 <= g < |Flatten(msgs)| => ShownLine(msgs, paused, cur, width, g))
  }

  /**
    Line `g` of the rendering: styling ignored it reads as `ShownLine`; while
    paused the cursor line is drawn in the cursor style with its keys in the
    cursor key style, the other lines of the cursor's message in the message
    highlight style with their keys in the message key style, and every other
    line (every line while live) is one unstyled segment.
  */
  lemma DrawnContentShape(msgs: seq<Message>, paused: bool, cur: int, width: int, g: nat)
    requires g < |Flatten(msgs)|
    ensures Texts(DrawnContent(msgs, paused, cur, width, g)) == ShownLine(msgs, paused, cur, width, g)
    ensures var segs := DrawnContent(msgs, paused, cur, width, g);
            forall k :: 0 <= k < |segs| && segs[k].Base? ==>
              && (segs[k].style == CursorStyle <==> paused && g == cur)
              && (segs[k].style == MsgHighlightStyle <==> paused && g != cur && InCursorMessage(msgs, cur, g))
              && (segs[k].style == Unstyled <==> !(paused && (g == cur || InCursorMessage(msgs, cur, g))))
    ensures var segs := DrawnContent(msgs, paused, cur, width, g);
            forall k :: 0 <= k < |segs| && segs[k].Key? ==>
              && paused && (g == cur || InCursorMessage(msgs, cur, g))
              && segs[k].style == (if g == cur then CursorJSONKeyStyle else MsgHighlightJSONKeyStyle)
    ensures !(paused && (g == cur || InCursorMessage(msgs, cur, g))) ==>
              DrawnContent(msgs, paused, cur, width, g) == [Base(Unstyled, Flatten(msgs)[g])]
  {
    LineSegmentsShape(Flatten(msgs)[g], paused && InCursorMessage(msgs, cur, g), paused && g == cur, width);
  }

  /** Line `g` with its line break: its shown text, then `"\n"` exactly when `HasBreak` says so. */
  lemma DrawnText(msgs: seq<Message>, paused: bool, cur: int, width: int, g: nat)
    requires g < |Flatten(msgs)|
    ensures Texts(Drawn(msgs, paused, cur, width, g)) ==
            ShownLine(msgs, paused, cur, width, g) + (if HasBreak(msgs, g) then "\n" else "")
  {
    DrawnContentShape(msgs, paused, cur, width, g);
    var brk: seq<Segment> := if HasBreak(msgs, g) then [Base(Unstyled, "\n")] else [];
    TextsConcat(DrawnContent(msgs, paused, cur, width, g), brk);
    assert Texts([Base(Unstyled, "\n")]) == "\n";
  }

  /** Lines 0 up to `b`, all followed by a break, read as their shown texts each ended by `"\n"`. */
  lemma {:induction false} DrawnPrefixText(msgs: seq<Message>, paused: bool, cur: int, width: int, b: nat)
    requires b <= |Flatten(msgs)|
    requires forall g :: 0 <= g < b ==> HasBreak(msgs, g)
    ensures Texts(DrawnRange(msgs, paused, cur, width, 0, b)) ==
            Text.Terminated(ShownLines(msgs, paused, cur, width)[..b], '\n')
  {
    var shown := ShownLines(msgs, paused, cur, width);
    if b > 0 {
      var before := DrawnRange(msgs, paused, cur, width, 0, b - 1);
      var last := Drawn(msgs, paused, cur, width, b - 1);
      DrawnPrefixText(msgs, paused, cur, width, b - 1);
      TextsConcat(before, last);
      DrawnText(msgs, paused, cur, width, b - 1);
      assert HasBreak(msgs, b - 1);
      assert Texts(last) == shown[b - 1] + "\n";
      assert shown[..b][..b - 1] == shown[..b - 1];
      assert Text.Terminated(shown[..b], '\n') == Text.Terminated(shown[..b - 1], '\n') + shown[b - 1] + ['\n'];
    }
  }

  /** With lines in the last message, every line but the last has a line break, and the last has none. */
  lemma BreaksOfNonEmptyLast(msgs: seq<Message>)
    requires |msgs| > 0 && |msgs[|msgs| - 1].indentedLines| > 0
    ensures |Flatten(msgs)| > 0 && !HasBreak(msgs, |Flatten(msgs)| - 1)
    ensures forall g :: 0 <= g < |Flatten(msgs)| - 1 ==> HasBreak(msgs, g)
  {
    FlattenLength(msgs);
    StartAll(msgs);
    StartNext(msgs, |msgs| - 1);
  }

  /** With lines in the last message, the text of the rendering is the shown lines joined by line breaks. */
  lemma RenderTextJoined(msgs: seq<Message>, paused: bool, cur: int, width: int)
    requires |msgs| > 0 && |msgs[|msgs| - 1].indentedLines| > 0
    ensures Texts(Render(msgs, paused, cur, width)) == Text.Join(ShownLines(msgs, paused, cur, width), '\n')
  {
    BreaksOfNonEmptyLast(msgs);
    var n := |Flatten(msgs)|;
    var shown := ShownLines(msgs, paused, cur, width);
    var before := DrawnRange(msgs, paused, cur, width, 0, n - 1);
    var last := Drawn(msgs, paused, cur, width, n - 1);
    RenderByLine(msgs, paused, cur, width);
    assert Render(msgs, paused, cur, width) == before + last;
    DrawnPrefixText(msgs, paused, cur, width, n - 1);
    TextsConcat(before, last);
    DrawnText(msgs, paused, cur, width, n - 1);
    assert Texts(last) == shown[n - 1];
    Text.JoinAsTerminated(shown, '\n');
  }

  /** With no lines in the last message (or no message), every shown line of the rendering ends in a line break. */
  lemma RenderTextTerminated(msgs: seq<Message>, paused: bool, cur: int, width: int)
    requires !(|msgs| > 0 && |msgs[|msgs| - 1].indentedLines| > 0)
    ensures Texts(Render(msgs, paused, cur, width)) == Text.Terminated(ShownLines(msgs, paused, cur, width), '\n')
  {
    var n := |Flatten(msgs)|;
    forall g | 0 <= g < n
      ensures HasBreak(msgs, g)
    {
    }
    RenderByLine(msgs, paused, cur, width);
    DrawnPrefixText(msgs, paused, cur, width, n);
    assert ShownLines(msgs, paused, cur, width)[..n] == ShownLines(msgs, paused, cur, width);
  }

  /**
    Styling ignored, the rendering is the shown lines joined by line breaks
    when the last message has lines; when it has none (an empty
    pretty-printing) every line, the last included, is followed by a break.
  */
  lemma RenderText(msgs: seq<Message>, paused: bool, cur: int, width: int)
    ensures |msgs| > 0 && |msgs[|msgs| - 1].indentedLines| > 0 ==>
              Texts(Render(msgs, paused, cur, width)) == Text.Join(ShownLines(msgs, paused, cur, width), '\n')
    ensures !(|msgs| > 0 && |msgs[|msgs| - 1].indentedLines| > 0) ==>
              Texts(Render(msgs, paused, cur, width)) == Text.Terminated(ShownLines(msgs, paused, cur, width), '\n')
  {
    if |msgs| > 0 && |msgs[|msgs| - 1].indentedLines| > 0 {
      RenderTextJoined(msgs, paused, cur, width);
    } else {
      RenderTextTerminated(msgs, paused, cur, width);
    }
  }

  /** While live nothing is padded: the rendering reads as the list's lines joined by line breaks. */
  lemma LiveRenderText(msgs: seq<Message>, cur: int, width: int)
    requires |msgs| > 0 && |msgs[|msgs| - 1].indentedLines| > 0
    ensures Texts(Render(msgs, false, cur, width)) == Text.Join(Flatten(msgs), '\n')
  {
    RenderText(msgs, false, cur, width);
    assert ShownLines(msgs, false, cur, width) == Flatten(msgs);
  }

  // ---------------------------------------------------------------------
  // The end-of-step cursor update

  /** While live, the end of a step only lets the viewport scroll. */
  lemma PostWhileLive(u: Ui, scroll: Option<int>)
    requires !u.paused
    ensures Post(u, scroll) == u.(vp := Scrolled(u.vp, scroll))
  {
  }

  /**
    While paused, the cursor follows the viewport's scrolling by the same
    number of rows and is clamped into `[0, total - 1]`; with an empty list it
    ends on -1.
  */
  lemma PostFollowsScroll(u: Ui, scroll: Option<int>)
    requires u.paused
    ensures var r := Post(u, scroll);
            var delta := Scrolled(u.vp, scroll).yOffset - u.vp.yOffset;
            && r.paused && r.lists == u.lists && r.active == u.active
            && (TotalLines(u) > 0 ==> r.line == Clamp(u.line + delta, 0, TotalLines(u) - 1))
            && (TotalLines(u) == 0 ==> r.line == -1)
  {
  }

  // ---------------------------------------------------------------------
  // Pause, messages, yank

  /**
    The pause key toggles pausing. Pausing puts the cursor on the last visible
    row (row 0 at least), then on the list; resuming keeps the cursor line.
  */
  lemma PauseToggles(u: Ui)
    ensures Update(u, KeyPress(PauseKey), None).0.paused == !u.paused
    ensures TogglePause(u).paused == !u.paused
    ensures !u.paused ==>
      TogglePause(u).line ==
        if u.vp.yOffset + VisibleLineCount(u.vp) - 1 < 0 then 0 else u.vp.yOffset + VisibleLineCount(u.vp) - 1
    ensures !u.paused && TotalLines(u) > 0 ==>
      Update(u, KeyPress(PauseKey), None).0.line == Clamp(u.vp.yOffset + VisibleLineCount(u.vp) - 1, 0, TotalLines(u) - 1)
    ensures u.paused ==> Update(u, KeyPress(PauseKey), None).0 == u.(paused := false)
  {
    if !u.paused {
      PostFollowsScroll(TogglePause(u), None);
    }
  }

  /** A message arriving while paused is dropped; the next frame is asked for either way. */
  lemma DroppedWhilePaused(u: Ui, m: Message, scroll: Option<int>)
    requires u.paused
    ensures Update(u, Incoming(m), scroll).0.lists == u.lists
    ensures Update(u, Incoming(m), scroll).1 == Effect(false, true, None)
  {
    PostFollowsScroll(u, scroll);
  }

  /** A message arriving while live is filed under its kind, at the end; the view goes to the bottom first. */
  lemma StoredWhileLive(u: Ui, m: Message, scroll: Option<int>)
    requires !u.paused
    ensures Update(u, Incoming(m), scroll).0.lists == Route(u.lists, m)
    ensures Update(u, Incoming(m), scroll).1 == Effect(false, true, None)
  {
  }

  /** The end of a step never touches the message lists or the selected kind. */
  lemma PostKeepsLists(u: Ui, scroll: Option<int>)
    ensures Post(u, scroll).lists == u.lists && Post(u, scroll).active == u.active
  {
    if u.paused {
      PostFollowsScroll(u, scroll);
    }
  }

  /** Switching tabs keeps the message lists. */
  lemma SwitchKeepsLists(u: Ui, kind: Kind, scroll: Option<int>)
    ensures Post(Sync(u.(active := kind)), scroll).lists == u.lists
  {
    PostKeepsLists(Sync(u.(active := kind)), scroll);
  }

  /** No key touches the message lists. */
  lemma KeysKeepLists(u: Ui, k: Key, scroll: Option<int>)
    ensures KeyStep(u, k, scroll).0.lists == u.lists
  {
    if k == LogsKey {
      SwitchKeepsLists(u, KindLogs, scroll);
    } else if k == MetricsKey {
      SwitchKeepsLists(u, KindMetrics, scroll);
    } else if k == TracesKey {
      SwitchKeepsLists(u, KindTraces, scroll);
    } else if k == PauseKey {
      PostKeepsLists(TogglePause(u), scroll);
    } else if !(k == QuitKey || (u.paused && (k == YankKey || k == UpKey || k == DownKey))) {
      PostKeepsLists(u, scroll);
    }
  }

  /** No other event touches the message lists. */
  lemma OnlyMessagesChangeLists(u: Ui, ev: Event, scroll: Option<int>)
    requires !ev.Incoming?
    ensures Update(u, ev, scroll).0.lists == u.lists
  {
    match ev
    case KeyPress(k) =>
      KeysKeepLists(u, k, scroll);
    case WindowSize(w, h) =>
      PostKeepsLists(Sync(Engine.Resize(u, w, h)), scroll);
    case Fault(e) =>
    case Tick =>
      PostKeepsLists(u, scroll);
  }

  /**
    Yank copies the cursor's message, its lines joined by line breaks, only
    while paused and only when there is one; then nothing else happens.
  */
  lemma Yank(u: Ui, scroll: Option<int>)
    ensures Update(u, KeyPress(YankKey), scroll).1.copied ==
      if u.paused && u.msg.Some? then Some(Text.Join(u.msg.value.indentedLines, '\n')) else None
    ensures u.paused ==> Update(u, KeyPress(YankKey), scroll).0 == u
  {
  }

  /** Nothing but yank writes to the clipboard. */
  lemma OnlyYankCopies(u: Ui, ev: Event, scroll: Option<int>)
    requires ev != KeyPress(YankKey)
    ensures Update(u, ev, scroll).1.copied == None
  {
  }

  /** Quit and a transport error stop the program and leave the view as it was (an error is recorded). */
  lemma QuitAndFault(u: Ui, e: string, scroll: Option<int>)
    ensures Update(u, KeyPress(QuitKey), scroll) == (u, Effect(true, false, None))
    ensures Update(u, Fault(e), scroll) == (u.(err := Some(e)), Effect(true, false, None))
  {
  }

  /** The tab keys select their kind's list. */
  lemma TabKeys(u: Ui, scroll: Option<int>)
    ensures Update(u, KeyPress(LogsKey), scroll).0.active == KindLogs
    ensures Update(u, KeyPress(MetricsKey), scroll).0.active == KindMetrics
    ensures Update(u, KeyPress(TracesKey), scroll).0.active == KindTraces
  {
    PostKeepsLists(Sync(u.(active := KindLogs)), scroll);
    PostKeepsLists(Sync(u.(active := KindMetrics)), scroll);
    PostKeepsLists(Sync(u.(active := KindTraces)), scroll);
  }

  // ---------------------------------------------------------------------
  // The invariant

  /** While paused: the cursor is on the list when the list has lines, and the cursor's message owns the cursor's line. */
  ghost predicate Inv(u: Ui)
  {
    u.paused ==>
      && (TotalLines(u) > 0 ==> 0 <= u.line < TotalLines(u))
      && u.msg == CursorMessage(ActiveMessages(u), u.line)
  }

  lemma InitialInv(active: Kind)
    ensures !Initial(active).paused && Inv(Initial(active))
  {
  }

  /** The end of a step always leaves the invariant holding. */
  lemma PostEstablishesInv(u: Ui, scroll: Option<int>)
    ensures Inv(Post(u, scroll))
  {
    if u.paused {
      PostFollowsScroll(u, scroll);
    }
  }

  /** Navigating keeps the invariant. */
  lemma NavigateKeepsInv(u: Ui, up: bool)
    requires Inv(u) && u.paused
    ensures Inv(Navigate(u, up))
  {
    var m := if up then CursorUp(u) else CursorDown(u);
    assert m.paused && m.lists == u.lists && m.active == u.active && (TotalLines(u) > 0 ==> 0 <= m.line < TotalLines(u)) by {
      CursorMovesStayInRange(u);
    }
    var e := EnsureCursorVisible(m);
    assert e.paused && e.lists == u.lists && e.active == u.active && e.line == m.line by {
      EnsureCursorVisibleCases(m);
    }
    SyncCursor(e);
  }

  /** Every key keeps the invariant. */
  lemma KeysKeepInv(u: Ui, k: Key, scroll: Option<int>)
    requires Inv(u)
    ensures Inv(KeyStep(u, k, scroll).0)
  {
    if k == QuitKey {
    } else if k == LogsKey {
      PostEstablishesInv(Sync(u.(active := KindLogs)), scroll);
    } else if k == MetricsKey {
      PostEstablishesInv(Sync(u.(active := KindMetrics)), scroll);
    } else if k == TracesKey {
      PostEstablishesInv(Sync(u.(active := KindTraces)), scroll);
    } else if k == PauseKey {
      PostEstablishesInv(TogglePause(u), scroll);
    } else if u.paused && k == YankKey {
    } else if u.paused && (k == UpKey || k == DownKey) {
      NavigateKeepsInv(u, k == UpKey);
    } else {
      PostEstablishesInv(u, scroll);
    }
  }

  /** Every step keeps the invariant. */
  lemma UpdateKeepsInv(u: Ui, ev: Event, scroll: Option<int>)
    requires Inv(u)
    ensures Inv(Update(u, ev, scroll).0)
  {
    match ev
    case KeyPress(k) =>
      KeysKeepInv(u, k, scroll);
    case WindowSize(w, h) =>
      PostEstablishesInv(Sync(Engine.Resize(u, w, h)), scroll);
    case Incoming(m) =>
      PostEstablishesInv(Receive(u, m), scroll);
    case Fault(e) =>
    case Tick =>
      PostEstablishesInv(u, scroll);
  }

  /** So yank, while paused with the cursor on the list, copies exactly the message that owns the cursor's line. */
  lemma YankCopiesCursorMessage(u: Ui, scroll: Option<int>)
    requires Inv(u) && u.paused && 0 <= u.line < TotalLines(u)
    ensures var msgs := ActiveMessages(u);
            var i := OwnerIndex(msgs, u.line);
            i < |msgs| && Start(msgs, i) <= u.line < Start(msgs, i + 1) &&
            Update(u, KeyPress(YankKey), scroll).1.copied == Some(Text.Join(msgs[i].indentedLines, '\n'))
  {
    OwnerIndexContains(ActiveMessages(u), u.line);
  }
}
