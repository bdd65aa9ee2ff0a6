/**
  `Model` of internal/ui/model.go: the object the terminal program updates
  in place, with its cursor and message store as separate objects. Every
  method is proved to change the fields exactly as the matching function of
  `Engine` says, so all that is proved about `Engine` holds of the object.
*/
module UiModel {
  import opened Wrappers
  import opened Styles
  import opened Telemetry
  import opened LineIndex
  import opened UiStore
  import opened Viewports
  import opened Cursors
  import opened Engine
  import Highlight
  import Text

  /**
    The writing of one line in `syncViewport`, model.go:247-261: the cursor
    line and the lines of the cursor's message are padded to the viewport
    width and have their keys picked out; any other line is written as is.
  */
  method StyleLine(l: string, highlight: bool, isCursor: bool, w: int) returns (content: seq<Segment>)
    ensures content == LineSegments(l, highlight, isCursor, w)
  {
    var padded := l;
    if highlight || isCursor {
      if w > 0 {
        var diff := w - |padded|;
        if diff > 0 {
          padded := padded + Spaces(diff);
        }
      }
    }
    if isCursor {
      content := Highlight.HighlightJSONKeys(padded, CursorStyle, CursorJSONKeyStyle);
    } else if highlight {
      content := Highlight.HighlightJSONKeys(padded, MsgHighlightStyle, MsgHighlightJSONKeyStyle);
    } else {
      content := [Base(Unstyled, padded)];
    }
  }

  /** One more line of message `i`. */
  lemma RenderLinesNext(src: seq<Message>, i: nat, j: nat, p: bool, c: int, w: int, owner: nat)
    requires i < |src| && j < |src[i].indentedLines|
    ensures RenderLines(src, i, j + 1, p, c, w, owner) ==
            RenderLines(src, i, j, p, c, w, owner) +
            (LineSegments(src[i].indentedLines[j], p && i == owner, p && Start(src, i) + j == c, w) + Newline(src, i, j))
  {
  }

  /**
    The inner loop of `syncViewport`, model.go:246-267: the lines of message
    `i`, each followed by a line break unless it is the last line of the
    list; `line` counts global lines and `current` becomes message `i` when
    the cursor line is among them.
  */
  method WriteLines(src: seq<Message>, i: nat, p: bool, c: int, w: int, ghost owner: nat, highlight: bool,
                    line0: nat, current0: Option<Message>)
    returns (out: seq<Segment>, line: nat, current: Option<Message>)
    requires i < |src| && owner == OwnerIndex(src, c) && highlight == (p && i == owner)
    requires line0 == Start(src, i)
    requires current0 == if p && 0 <= c < line0 then Some(src[owner]) else None
    ensures out == RenderLines(src, i, |src[i].indentedLines|, p, c, w, owner)
    ensures line == Start(src, i + 1)
    ensures current == if p && 0 <= c < line then Some(src[owner]) else None
  {
    StartNext(src, i);
    out, line, current := [], line0, current0;
    for j := 0 to |src[i].indentedLines|
      invariant line == Start(src, i) + j
      invariant out == RenderLines(src, i, j, p, c, w, owner)
      invariant current == if p && 0 <= c < line then Some(src[owner]) else None
    {
      var isCursor := p && line == c;
      var content := StyleLine(src[i].indentedLines[j], highlight, isCursor, w);
      if isCursor {
        OwnerIndexOfContained(src, c, i);
        current := Some(src[i]);
      }
      var nl: seq<Segment> := [];
      if i < |src| - 1 || j < |src[i].indentedLines| - 1 {
        nl := [Base(Unstyled, "\n")];
      }
      RenderLinesNext(src, i, j, p, c, w, owner);
      out := out + (content + nl);
      line := line + 1;
    }
  }

  /** The message the cursor line `c` falls in, while paused and with the cursor on the list. */
  function CursorHit(msgs: seq<Message>, paused: bool, c: int): Option<Message>
  {
    if paused && 0 <= c < LineCount(msgs) then Some(msgs[OwnerIndex(msgs, c)]) else None
  }

  /** `Sync` field by field, for a cursor line already clamped and a content already rendered. */
  lemma SyncFields(u: Ui, c: int, current: Option<Message>, b: seq<Segment>)
    requires c == if u.line >= TotalLines(u) then TotalLines(u) - 1 else u.line
    requires current == CursorHit(ActiveMessages(u), u.paused, c)
    requires b == Render(ActiveMessages(u), u.paused, c, u.vp.width)
    ensures Sync(u) == u.(line := c, msg := current, vp := SetContent(u.vp, b))
  {
  }

  class Model {
    var ready: bool
    var paused: bool
    var viewport: Viewport
    var active: Kind
    var err: Option<string>
    const cur: Cursor
    const store: MessageStore

    /** The model's value. */
    ghost function Abs(): Ui
      reads this, cur, store
    {
      Ui(ready, paused, viewport, cur.line, cur.msg, store.Value(), active, err)
    }

    /** `newModel`, model.go:41-49. */
    constructor (active: Kind)
      ensures Abs() == Initial(active)
      ensures fresh(cur) && fresh(store)
    {
      ready, paused := false, false;
      viewport := New(0, 0);
      this.active := active;
      err := None;
      cur := new Cursor();
      store := new MessageStore();
    }

    /** `cursorMsgIndex`, model.go:59-72: the first message whose range reaches past the cursor line. */
    method CursorMsgIndex() returns (idx: nat)
      ensures idx == OwnerIndex(store.Messages(active), cur.line)
    {
      var line: nat := 0;
      var msgs := store.Messages(active);
      for i := 0 to |msgs|
        invariant OwnerFrom(msgs, cur.line, i, line) == OwnerIndex(msgs, cur.line)
      {
        if cur.line < line + |msgs[i].indentedLines| {
          return i;
        }
        line := line + |msgs[i].indentedLines|;
      }
      if |msgs| == 0 {
        return 0;
      }
      return |msgs| - 1;
    }

    /** `ensureCursorVisible`, model.go:74-83. */
    method EnsureCursorVisible()
      modifies this
      ensures Abs() == Engine.EnsureCursorVisible(old(Abs()))
    {
      if !paused {
        return;
      }
      if cur.line < viewport.yOffset {
        viewport := SetYOffset(viewport, cur.line);
      } else if cur.line >= viewport.yOffset + viewport.height {
        viewport := SetYOffset(viewport, cur.line - viewport.height + 1);
      }
    }

    /** `cursorUp`, model.go:85-93. */
    method CursorUp()
      modifies this, cur
      ensures Abs() == Engine.CursorUp(old(Abs()))
    {
      if cur.line == 0 {
        return;
      }
      cur.line := cur.line - 1;
      if cur.line < viewport.yOffset + CursorBuffer && !AtTop(viewport) {
        viewport := SetYOffset(viewport, viewport.yOffset - 1);
      }
    }

    /** `cursorDown`, model.go:95-104. */
    method CursorDown()
      modifies this, cur
      ensures Abs() == Engine.CursorDown(old(Abs()))
    {
      var total: int := store.TotalLines(active);
      if cur.line >= total - 1 {
        return;
      }
      cur.line := cur.line + 1;
      var bottom := viewport.yOffset + VisibleLineCount(viewport) - CursorBuffer;
      if cur.line >= bottom && !AtBottom(viewport) {
        viewport := SetYOffset(viewport, viewport.yOffset + 1);
      }
    }

    /**
      The two loops of `syncViewport`, model.go:241-268: every line of the
      active list written out, and the message the cursor line falls in
      (`None` while live or when the cursor is off the list).
    */
    method WriteList() returns (b: seq<Segment>, current: Option<Message>)
      ensures b == Render(store.Messages(active), paused, cur.line, viewport.width)
      ensures current == CursorHit(store.Messages(active), paused, cur.line)
    {
      var src := store.Messages(active);
      var c, p, w := cur.line, paused, viewport.width;
      ghost var owner := OwnerIndex(src, c);
      b := [];
      var line: nat := 0;
      current := None;
      for i := 0 to |src|
        invariant line == Start(src, i)
        invariant b == RenderMessages(src, i, p, c, w, owner)
        invariant current == if p && 0 <= c < line then Some(src[owner]) else None
      {
        var highlight := false;
        if p {
          var idx := CursorMsgIndex();
          highlight := i == idx;
        }
        var lines;
        lines, line, current := WriteLines(src, i, p, c, w, owner, highlight, line, current);
        b := b + lines;
      }
      StartAll(src);
    }

    /**
      `syncViewport`, model.go:234-271: clamp the cursor, then write every line
      of the active list, the cursor's message highlighted and the cursor line
      in the cursor style, and remember the message the cursor line is in.
    */
    method SyncViewport()
      modifies this, cur
      ensures Abs() == Sync(old(Abs()))
    {
      var total: int := store.TotalLines(active);
      if cur.line >= total {
        cur.line := total - 1;
      }
      var b, current := WriteList();
      SyncFields(old(Abs()), cur.line, current, b);
      cur.msg := current;
      viewport := SetContent(viewport, b);
    }

    /** The pause key, model.go:131-138. */
    method TogglePause()
      modifies this, cur
      ensures Abs() == Engine.TogglePause(old(Abs()))
    {
      paused := !paused;
      if paused {
        cur.line := viewport.yOffset + VisibleLineCount(viewport) - 1;
        if cur.line < 0 {
          cur.line := 0;
        }
      }
    }

    /** A window size change, model.go:160-168. */
    method Resize(width: int, height: int)
      modifies this, cur
      ensures Abs() == Sync(Engine.Resize(old(Abs()), width, height))
    {
      var verticalMargin := 5;
      if !ready {
        viewport := New(width, height - verticalMargin);
        ready := true;
      } else {
        viewport := Viewports.Resize(viewport, width, height - verticalMargin);
      }
      SyncViewport();
    }

    /** A telemetry message, model.go:170-176: stored and scrolled to while live, dropped while paused. */
    method Receive(m: Message)
      modifies this, cur, store
      ensures Abs() == Engine.Receive(old(Abs()), m)
    {
      if !paused {
        store.Add(m);
        viewport := GotoBottom(viewport);
        SyncViewport();
      }
    }

    /** The viewport's reaction and the cursor's following of it, model.go:188-203. */
    method Follow(scroll: Option<int>)
      modifies this, cur
      ensures Abs() == Engine.Follow(old(Abs()), scroll)
    {
      var oldOffset := viewport.yOffset;
      viewport := Scrolled(viewport, scroll);
      if paused {
        var delta := viewport.yOffset - oldOffset;
        if delta != 0 {
          cur.line := cur.line + delta;
        }
        if cur.line < 0 {
          cur.line := 0;
        }
        var total: int := store.TotalLines(active);
        if total > 0 && cur.line >= total {
          cur.line := total - 1;
        }
      }
    }

    /** The end of `Update`, model.go:188-206, with `scroll` the viewport's own reaction to the event. */
    method Post(scroll: Option<int>)
      modifies this, cur
      ensures Abs() == Engine.Post(old(Abs()), scroll)
    {
      Follow(scroll);
      if paused {
        EnsureCursorVisible();
        SyncViewport();
      }
    }

    /** A tab key, model.go:122-130: switch the list shown and re-render. */
    method Switch(kind: Kind, scroll: Option<int>)
      modifies this, cur
      ensures Abs() == Engine.Post(Sync(old(Abs()).(active := kind)), scroll)
    {
      active := kind;
      SyncViewport();
      Post(scroll);
    }

    /** An arrow key while paused, model.go:145-154. */
    method Navigate(up: bool)
      modifies this, cur
      ensures Abs() == Engine.Navigate(old(Abs()), up)
    {
      if up {
        CursorUp();
      } else {
        CursorDown();
      }
      EnsureCursorVisible();
      SyncViewport();
    }

    /** The key press case of `Update`, model.go:117-158; the copied text is returned as an effect. */
    method KeyPress(k: Key, scroll: Option<int>) returns (eff: Effect)
      modifies this, cur
      ensures (Abs(), eff) == KeyStep(old(Abs()), k, scroll)
    {
      eff := NoEffect;
      if k == QuitKey {
        eff := Effect(true, false, None);
      } else if k == LogsKey {
        Switch(KindLogs, scroll);
      } else if k == MetricsKey {
        Switch(KindMetrics, scroll);
      } else if k == TracesKey {
        Switch(KindTraces, scroll);
      } else if k == PauseKey {
        TogglePause();
        Post(scroll);
      } else if paused && k == YankKey {
        if cur.msg.Some? {
          eff := Effect(false, false, Some(Text.Join(cur.msg.value.indentedLines, '\n')));
        }
      } else if paused && k == UpKey {
        Navigate(true);
      } else if paused && k == DownKey {
        Navigate(false);
      } else {
        Post(scroll);
      }
    }

    /** `Update`, model.go:113-209: one event, and what it asks of the outside world. */
    method Update(ev: Event, scroll: Option<int>) returns (eff: Effect)
      modifies this, cur, store
      ensures (Abs(), eff) == Engine.Update(old(Abs()), ev, scroll)
    {
      match ev {
        case KeyPress(k) =>
          eff := KeyPress(k, scroll);
        case WindowSize(w, h) =>
          Resize(w, h);
          Post(scroll);
          eff := NoEffect;
        case Incoming(m) =>
          Receive(m);
          Post(scroll);
          eff := Effect(false, true, None);
        case Fault(e) =>
          err := Some(e);
          eff := Effect(true, false, None);
        case Tick =>
          Post(scroll);
          eff := NoEffect;
      }
    }
  }
}
