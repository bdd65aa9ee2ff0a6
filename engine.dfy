/**
  The pause/cursor/viewport state machine of internal/ui/model.go (and of its
  earlier copy internal/ui/root.go), as functions on the model's value. The
  `Model` and `RootModel` classes are proved to update their fields exactly as
  these functions say; the lemmas here state what the program promises about
  them.

  Left to the libraries: key matching (a key press arrives already classified
  as `Key`), the viewport's own reaction to an event (`scroll`, see
  `Viewports.Scrolled`), the spinner, help and clipboard (the copied text is
  an effect of the step), and the transport (`readNext` asks for the next
  frame).
*/
module Engine {
  import opened Wrappers
  import opened Styles
  import opened Telemetry
  import opened LineIndex
  import opened UiStore
  import opened Viewports
  import Text
  import Highlight

  /** Lines kept between the cursor and the edge of the viewport while navigating. */
  const CursorBuffer: int := 3

  /** Rows of the terminal not given to the viewport. */
  const VerticalMargin: int := 5

  datatype Ui = Ui(
    ready: bool,
    paused: bool,
    vp: Viewport,
    line: int,
    msg: Option<Message>,
    lists: Lists,
    active: Kind,
    err: Option<string>)

  datatype Key = QuitKey | LogsKey | MetricsKey | TracesKey | PauseKey | YankKey | UpKey | DownKey | OtherKey

  datatype Event =
    | KeyPress(key: Key)
    | WindowSize(width: int, height: int)
    | Incoming(message: Message)
    | Fault(error: string)
    | Tick

  /** What a step asks of the outside world: quit, read the next frame, put text on the clipboard. */
  datatype Effect = Effect(quit: bool, readNext: bool, copied: Option<string>)

  const NoEffect := Effect(false, false, None)

  /** `newModel`: nothing received, not ready, not paused. */
  function Initial(active: Kind): (r: Ui)
    ensures TotalLines(r) == 0 && r.active == active
    ensures !r.ready && !r.paused && r.msg == None && r.err == None && r.vp.lineCount == 0
  {
    Ui(false, false, New(0, 0), 0, None, Lists([], [], []), active, None)
  }

  /** The list of the kind shown. */
  function ActiveMessages(u: Ui): (r: seq<Message>)
    ensures r == [u.lists.logs, u.lists.metrics, u.lists.traces][Bucket(u.active)]
  {
    Select(u.lists, u.active)
  }

  /** The number of lines of the list shown. */
  function TotalLines(u: Ui): (n: nat)
    ensures n == |Flatten(ActiveMessages(u))|
  {
    FlattenLength(ActiveMessages(u));
    LineCount(ActiveMessages(u))
  }

  // ---------------------------------------------------------------------
  // Cursor movement

  /** `ensureCursorVisible`: only the viewport's offset may move. */
  function EnsureCursorVisible(u: Ui): (r: Ui)
    ensures r == u.(vp := r.vp) && r.vp == u.vp.(yOffset := r.vp.yOffset)
    ensures !u.paused ==> r == u
  {
    if !u.paused then u
    else if u.line < u.vp.yOffset then u.(vp := SetYOffset(u.vp, u.line))
    else if u.line >= u.vp.yOffset + u.vp.height then u.(vp := SetYOffset(u.vp, u.line - u.vp.height + 1))
    else u
  }

  /** `cursorUp`: one line up unless on the first line; only the cursor and the viewport change. */
  function CursorUp(u: Ui): (r: Ui)
    ensures r == u.(line := r.line, vp := r.vp)
    ensures u.line == 0 ==> r == u
    ensures u.line != 0 ==> r.line == u.line - 1
  {
    if u.line == 0 then u
    else
      var line := u.line - 1;
      if line < u.vp.yOffset + CursorBuffer && !AtTop(u.vp) then
        u.(line := line, vp := SetYOffset(u.vp, u.vp.yOffset - 1))
      else u.(line := line)
  }

  /** `cursorDown`: one line down unless on the last line; only the cursor and the viewport change. */
  function CursorDown(u: Ui): (r: Ui)
    ensures r == u.(line := r.line, vp := r.vp)
    ensures u.line >= TotalLines(u) - 1 ==> r == u
    ensures u.line < TotalLines(u) - 1 ==> r.line == u.line + 1
  {
    if u.line >= TotalLines(u) - 1 then u
    else
      var line := u.line + 1;
      var bottom := u.vp.yOffset + VisibleLineCount(u.vp) - CursorBuffer;
      if line >= bottom && !AtBottom(u.vp) then
        u.(line := line, vp := SetYOffset(u.vp, u.vp.yOffset + 1))
      else u.(line := line)
  }

  /** An arrow key while paused: move, keep the cursor on screen, re-render. */
  function Navigate(u: Ui, up: bool): (r: Ui)
    ensures r.lists == u.lists && r.active == u.active && r.paused == u.paused && r.ready == u.ready && r.err == u.err
    ensures r.vp.width == u.vp.width && r.vp.height == u.vp.height
  {
    Sync(EnsureCursorVisible(if up then CursorUp(u) else CursorDown(u)))
  }

  // ---------------------------------------------------------------------
  // Rendering (`syncViewport`)

  /** `strings.Repeat(" ", n)`. */
  function Spaces(n: nat): (s: string)
    ensures |s| == n
  {
    if n == 0 then "" else Spaces(n - 1) + " "
  }

  /** A line padded with spaces to the viewport width; one column per character. */
  function Pad(l: string, width: int): (p: string)
    ensures width > |l| ==> |p| == width
    ensures width <= |l| ==> p == l
    ensures p[..|l|] == l
  {
    if width > 0 && width - |l| > 0 then l + Spaces(width - |l|) else l
  }

  /** The segments of one line: the cursor line and the rest of its message are padded and have their keys picked out. */
  function LineSegments(l: string, highlight: bool, isCursor: bool, width: int): seq<Segment>
  {
    var padded := if highlight || isCursor then Pad(l, width) else l;
    if isCursor then Highlight.Highlighted(padded, CursorStyle, CursorJSONKeyStyle)
    else if highlight then Highlight.Highlighted(padded, MsgHighlightStyle, MsgHighlightJSONKeyStyle)
    else [Base(Unstyled, padded)]
  }

  /**
    Styling ignored, a line reads as itself, padded when it is highlighted or
    the cursor line. The cursor line is drawn in the cursor style with its keys
    in the cursor key style; another highlighted line in the message highlight
    style with its keys in the message key style; any other line is one
    unstyled segment.
  */
  lemma LineSegmentsShape(l: string, highlight: bool, isCursor: bool, width: int)
    ensures Texts(LineSegments(l, highlight, isCursor, width)) == if highlight || isCursor then Pad(l, width) else l
    ensures var segs := LineSegments(l, highlight, isCursor, width);
            forall k :: 0 <= k < |segs| && segs[k].Base? ==>
              segs[k].style == if isCursor then CursorStyle else if highlight then MsgHighlightStyle else Unstyled
    ensures var segs := LineSegments(l, highlight, isCursor, width);
            forall k :: 0 <= k < |segs| && segs[k].Key? ==>
              (highlight || isCursor) && segs[k].style == if isCursor then CursorJSONKeyStyle else MsgHighlightJSONKeyStyle
    ensures !highlight && !isCursor ==> LineSegments(l, highlight, isCursor, width) == [Base(Unstyled, l)]
  {
    Highlight.HighlightedProperties(Pad(l, width), CursorStyle, CursorJSONKeyStyle);
    Highlight.HighlightedProperties(Pad(l, width), MsgHighlightStyle, MsgHighlightJSONKeyStyle);
    assert Texts([Base(Unstyled, l)]) == l + Texts([]);
  }

  /** A line break follows every line but the last line of the last message. */
  function Newline(msgs: seq<Message>, i: nat, j: nat): (r: seq<Segment>)
    requires i < |msgs|
    ensures r == [] || r == [Base(Unstyled, "\n")]
    ensures r == [] <==> i == |msgs| - 1 && j >= |msgs[i].indentedLines| - 1
  {
    if i < |msgs| - 1 || j < |msgs[i].indentedLines| - 1 then [Base(Unstyled, "\n")] else []
  }

  /** Line `j` of message `i`, followed by its line break, with the cursor on global line `cur` and on message `owner`. */
  function RenderLine(msgs: seq<Message>, i: nat, j: nat, paused: bool, cur: int, width: int, owner: nat): seq<Segment>
    requires i < |msgs| && j < |msgs[i].indentedLines|
  {
    var isCursor := paused && Start(msgs, i) + j == cur;
    LineSegments(msgs[i].indentedLines[j], paused && i == owner, isCursor, width) + Newline(msgs, i, j)
  }

  /** The first `n` lines of message `i`. */
  function RenderLines(msgs: seq<Message>, i: nat, n: nat, paused: bool, cur: int, width: int, owner: nat): seq<Segment>
    requires i < |msgs| && n <= |msgs[i].indentedLines|
  {
    if n == 0 then []
    else RenderLines(msgs, i, n - 1, paused, cur, width, owner) + RenderLine(msgs, i, n - 1, paused, cur, width, owner)
  }

  /** The first `k` messages. */
  function RenderMessages(msgs: seq<Message>, k: nat, paused: bool, cur: int, width: int, owner: nat): seq<Segment>
    requires k <= |msgs|
  {
    if k == 0 then []
    else
      RenderMessages(msgs, k - 1, paused, cur, width, owner) +
      RenderLines(msgs, k - 1, |msgs[k - 1].indentedLines|, paused, cur, width, owner)
  }

  /** What `syncViewport` writes into the viewport for the list `msgs` and cursor line `cur`. */
  function Render(msgs: seq<Message>, paused: bool, cur: int, width: int): seq<Segment>
  {
    RenderMessages(msgs, |msgs|, paused, cur, width, OwnerIndex(msgs, cur))
  }

  // ---------------------------------------------------------------------
  // The rendering described line by line, by global line number

  /** Global line `g` lies in the range of the message owning the cursor line `cur`. */
  predicate InCursorMessage(msgs: seq<Message>, cur: int, g: int)
  {
    var o := OwnerIndex(msgs, cur);
    o < |msgs| && Start(msgs, o) <= g < Start(msgs, o + 1)
  }

  /** A line break follows global line `g` unless it is the last line of the last message. */
  predicate HasBreak(msgs: seq<Message>, g: int)
  {
    !(|msgs| > 0 && |msgs[|msgs| - 1].indentedLines| > 0 && g == LineCount(msgs) - 1)
  }

  /** The segments of global line `g`, its line break left out. */
  function DrawnContent(msgs: seq<Message>, paused: bool, cur: int, width: int, g: nat): seq<Segment>
    requires g < |Flatten(msgs)|
  {
    LineSegments(Flatten(msgs)[g], paused && InCursorMessage(msgs, cur, g), paused && g == cur, width)
  }

  /** Global line `g` followed by its line break, if it has one. */
  function Drawn(msgs: seq<Message>, paused: bool, cur: int, width: int, g: nat): seq<Segment>
    requires g < |Flatten(msgs)|
  {
    DrawnContent(msgs, paused, cur, width, g) + (if HasBreak(msgs, g) then [Base(Unstyled, "\n")] else [])
  }

  /** Global lines `a` up to `b`, drawn one after another. */
  function DrawnRange(msgs: seq<Message>, paused: bool, cur: int, width: int, a: nat, b: nat): seq<Segment>
    requires a <= b <= |Flatten(msgs)|
    decreases b - a
  {
    if a == b then [] else DrawnRange(msgs, paused, cur, width, a, b - 1) + Drawn(msgs, paused, cur, width, b - 1)
  }

  /** The first `n` lines of message `i`, with the cursor's message as owner, are global lines `Start(i)` up to `Start(i) + n`. */
  lemma {:induction false} RenderLinesDrawn(msgs: seq<Message>, i: nat, n: nat, paused: bool, cur: int, width: int)
    requires i < |msgs| && n <= |msgs[i].indentedLines|
    ensures Start(msgs, i) + n <= |Flatten(msgs)|
    ensures RenderLines(msgs, i, n, paused, cur, width, OwnerIndex(msgs, cur)) ==
            DrawnRange(msgs, paused, cur, width, Start(msgs, i), Start(msgs, i) + n)
  {
    StartNext(msgs, i);
    StartMonotone(msgs, i + 1, |msgs|);
    StartAll(msgs);
    FlattenLength(msgs);
    if n > 0 {
      RenderLinesDrawn(msgs, i, n - 1, paused, cur, width);
      RenderLineDrawn(msgs, i, n - 1, paused, cur, width);
    }
  }

  /** The first `k` messages, with the cursor's message as owner, are global lines 0 up to `Start(k)`. */
  lemma {:induction false} RenderMessagesDrawn(msgs: seq<Message>, k: nat, paused: bool, cur: int, width: int)
    requires k <= |msgs|
    ensures Start(msgs, k) <= |Flatten(msgs)|
    ensures RenderMessages(msgs, k, paused, cur, width, OwnerIndex(msgs, cur)) == DrawnRange(msgs, paused, cur, width, 0, Start(msgs, k))
  {
    StartMonotone(msgs, k, |msgs|);
    StartAll(msgs);
    FlattenLength(msgs);
    if k > 0 {
      StartNext(msgs, k - 1);
      RenderMessagesDrawn(msgs, k - 1, paused, cur, width);
      RenderLinesDrawn(msgs, k - 1, |msgs[k - 1].indentedLines|, paused, cur, width);
      DrawnRangeSplit(msgs, paused, cur, width, 0, Start(msgs, k - 1), Start(msgs, k));
    }
  }

  /** The rendering is every line of the list, in order, each drawn as `Drawn` says. */
  lemma RenderByLine(msgs: seq<Message>, paused: bool, cur: int, width: int)
    ensures Render(msgs, paused, cur, width) == DrawnRange(msgs, paused, cur, width, 0, |Flatten(msgs)|)
  {
    RenderMessagesDrawn(msgs, |msgs|, paused, cur, width);
    StartAll(msgs);
    FlattenLength(msgs);
  }

  lemma {:induction false} DrawnRangeSplit(msgs: seq<Message>, paused: bool, cur: int, width: int, a: nat, b: nat, c: nat)
    requires a <= b <= c <= |Flatten(msgs)|
    ensures DrawnRange(msgs, paused, cur, width, a, c) == DrawnRange(msgs, paused, cur, width, a, b) + DrawnRange(msgs, paused, cur, width, b, c)
    decreases c - b
  {
    if b < c {
      DrawnRangeSplit(msgs, paused, cur, width, a, b, c - 1);
    }
  }

  /**
    Line `j` of message `i`, drawn by `RenderLine` with the cursor's message
    as owner, is global line `Start(i) + j` drawn as `Drawn` says.
  */
  lemma RenderLineDrawn(msgs: seq<Message>, i: nat, j: nat, paused: bool, cur: int, width: int)
    requires i < |msgs| && j < |msgs[i].indentedLines|
    ensures Start(msgs, i) + j < |Flatten(msgs)|
    ensures RenderLine(msgs, i, j, paused, cur, width, OwnerIndex(msgs, cur)) == Drawn(msgs, paused, cur, width, Start(msgs, i) + j)
  {
    FlattenAt(msgs, i, j);
    LineInOwner(msgs, cur, i, j);
    LineBreak(msgs, i, j);
  }

  /** Line `j` of message `i` lies in the cursor's message exactly when `i` owns the cursor line. */
  lemma LineInOwner(msgs: seq<Message>, cur: int, i: nat, j: nat)
    requires i < |msgs| && j < |msgs[i].indentedLines|
    ensures InCursorMessage(msgs, cur, Start(msgs, i) + j) <==> i == OwnerIndex(msgs, cur)
  {
    StartNext(msgs, i);
    var o := OwnerIndex(msgs, cur);
    if o < |msgs| {
      StartNext(msgs, o);
      if o < i {
        StartMonotone(msgs, o + 1, i);
      } else if i < o {
        StartMonotone(msgs, i + 1, o);
      }
    }
  }

  /** Line `j` of message `i` has a line break exactly when `Newline` writes one after it. */
  lemma LineBreak(msgs: seq<Message>, i: nat, j: nat)
    requires i < |msgs| && j < |msgs[i].indentedLines|
    ensures HasBreak(msgs, Start(msgs, i) + j) <==> i < |msgs| - 1 || j < |msgs[i].indentedLines| - 1
  {
    StartNext(msgs, i);
    StartAll(msgs);
    StartNext(msgs, |msgs| - 1);
    if i < |msgs| - 1 {
      StartMonotone(msgs, i + 1, |msgs| - 1);
    }
  }


  /** `syncViewport`: pull the cursor back onto the list, find its message, and re-render. */
  function Sync(u: Ui): (r: Ui)
    ensures r == u.(line := r.line, msg := r.msg, vp := r.vp)
  {
    var msgs := ActiveMessages(u);
    var total := LineCount(msgs);
    var line := if u.line >= total then total - 1 else u.line;
    u.(line := line,
       msg := if u.paused then CursorMessage(msgs, line) else None,
       vp := SetContent(u.vp, Render(msgs, u.paused, line, u.vp.width)))
  }

  // ---------------------------------------------------------------------
  // Events

  /** The pause key: toggle, and when pausing put the cursor on the last visible row. */
  function TogglePause(u: Ui): (r: Ui)
    ensures r.paused == !u.paused
    ensures r == u.(paused := r.paused, line := r.line)
    ensures u.paused ==> r.line == u.line
    ensures !u.paused ==> r.line >= 0
  {
    if u.paused then u.(paused := false)
    else
      var line := u.vp.yOffset + VisibleLineCount(u.vp) - 1;
      u.(paused := true, line := if line < 0 then 0 else line)
  }

  /** A window size change: a new viewport the first time, a resized one afterwards. */
  function Resize(u: Ui, width: int, height: int): (r: Ui)
    ensures r == u.(vp := r.vp, ready := true)
    ensures r.vp.width == width && r.vp.height == height - VerticalMargin
    ensures u.ready ==> r.vp == u.vp.(width := r.vp.width, height := r.vp.height)
    ensures !u.ready ==> r.vp.yOffset == 0 && r.vp.lineCount == 0 && r.vp.content == []
  {
    if !u.ready then u.(vp := New(width, height - VerticalMargin), ready := true)
    else u.(vp := Viewports.Resize(u.vp, width, height - VerticalMargin))
  }

  /** A telemetry message: stored and scrolled to while live, dropped while paused. */
  function Receive(u: Ui, m: Message): (r: Ui)
    ensures u.paused ==> r == u
    ensures !u.paused ==> r.lists == Route(u.lists, m)
    ensures r.paused == u.paused && r.active == u.active && r.err == u.err
  {
    if u.paused then u
    else Sync(u.(lists := Route(u.lists, m), vp := GotoBottom(u.vp)))
  }

  /**
    The viewport reacts to the event, and while paused the cursor follows its
    scrolling and is pulled back onto the list.
  */
  function Follow(u: Ui, scroll: Option<int>): (r: Ui)
    ensures r == u.(vp := r.vp, line := r.line)
    ensures r.vp == Scrolled(u.vp, scroll)
    ensures !u.paused ==> r.line == u.line
    ensures u.paused ==> r.line >= 0
  {
    var v := Scrolled(u.vp, scroll);
    var u1 := u.(vp := v);
    if !u1.paused then u1
    else
      var delta := v.yOffset - u.vp.yOffset;
      var l1 := if delta != 0 then u.line + delta else u.line;
      var l2 := if l1 < 0 then 0 else l1;
      var total := TotalLines(u1);
      u1.(line := if total > 0 && l2 >= total then total - 1 else l2)
  }

  /**
    The end of every step that does not return early: the viewport reacts to
    the event, and while paused the cursor follows its scrolling, is clamped
    onto the list, made visible, and the content re-rendered.
  */
  function Post(u: Ui, scroll: Option<int>): (r: Ui)
    ensures r.lists == u.lists && r.active == u.active && r.paused == u.paused
    ensures r.ready == u.ready && r.err == u.err
  {
    var u1 := Follow(u, scroll);
    if !u1.paused then u1 else Sync(EnsureCursorVisible(u1))
  }

  /** A key press: the `tea.KeyMsg` case of `Update`. */
  function KeyStep(u: Ui, k: Key, scroll: Option<int>): (r: (Ui, Effect))
    ensures r.1.quit <==> k == QuitKey
    ensures !r.1.readNext
    ensures r.1.copied.Some? ==> k == YankKey && u.paused
    ensures r.0.err == u.err && r.0.ready == u.ready
  {
    if k == QuitKey then (u, Effect(true, false, None))
    else if k == LogsKey then (Post(Sync(u.(active := KindLogs)), scroll), NoEffect)
    else if k == MetricsKey then (Post(Sync(u.(active := KindMetrics)), scroll), NoEffect)
    else if k == TracesKey then (Post(Sync(u.(active := KindTraces)), scroll), NoEffect)
    else if k == PauseKey then (Post(TogglePause(u), scroll), NoEffect)
    else if u.paused && k == YankKey then
      (u, Effect(false, false, if u.msg.Some? then Some(Text.Join(u.msg.value.indentedLines, '\n')) else None))
    else if u.paused && k == UpKey then (Navigate(u, true), NoEffect)
    else if u.paused && k == DownKey then (Navigate(u, false), NoEffect)
    else (Post(u, scroll), NoEffect)
  }

  /** `Update`: one event, with `scroll` the viewport's own reaction to it. */
  function Update(u: Ui, ev: Event, scroll: Option<int>): (r: (Ui, Effect))
    ensures r.1.quit <==> ev == KeyPress(QuitKey) || ev.Fault?
    ensures r.1.readNext <==> ev.Incoming?
    ensures !ev.KeyPress? ==> r.0.active == u.active && r.0.paused == u.paused
  {
    match ev
    case KeyPress(k) => KeyStep(u, k, scroll)
    case WindowSize(w, h) => (Post(Sync(Resize(u, w, h)), scroll), NoEffect)
    case Incoming(m) => (Post(Receive(u, m), scroll), Effect(false, true, None))
    case Fault(e) => (u.(err := Some(e)), Effect(true, false, None))
    case Tick => (Post(u, scroll), NoEffect)
  }
}


