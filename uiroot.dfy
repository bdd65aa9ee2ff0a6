/**
  `model` of internal/ui/root.go, the earlier copy of the user interface that
  keeps the three message lists and the cursor as fields of its own. Its
  methods are proved against the same `Engine` functions as `UiModel.Model`,
  so the two copies step alike on every event: the value of one after an
  event is the value of the other after it, whenever they started equal.
*/
module UiRoot {
  import opened Wrappers
  import opened Styles
  import opened Telemetry
  import opened LineIndex
  import opened UiStore
  import opened Viewports
  import opened Engine
  import opened UiModel
  import Text

  class RootModel {
    var ready: bool
    var paused: bool
    var viewport: Viewport
    var cursorLine: int
    var cursorMsg: Option<Message>
    var logs: seq<Message>
    var metrics: seq<Message>
    var traces: seq<Message>
    var active: Kind
    var err: Option<string>

    /** The model's value. */
    ghost function Abs(): Ui
      reads this
    {
      Ui(ready, paused, viewport, cursorLine, cursorMsg, Lists(logs, metrics, traces), active, err)
    }

    /** The model `Run` builds, root.go:398-404: every field at its zero value but the active kind. */
    constructor (active: Kind)
      ensures Abs() == Initial(active)
    {
      ready, paused := false, false;
      viewport := New(0, 0);
      cursorLine, cursorMsg := 0, None;
      logs, metrics, traces := [], [], [];
      this.active := active;
      err := None;
    }

    /** `activeMessages`, root.go:97-106: metrics, traces, or the logs for every other kind. */
    method ActiveMessages() returns (msgs: seq<Message>)
      ensures msgs == Select(Lists(logs, metrics, traces), active)
    {
      if active == KindMetrics {
        msgs := metrics;
      } else if active == KindTraces {
        msgs := traces;
      } else {
        msgs := logs;
      }
    }

    /** `totalLines`, root.go:108-115: the lines of the active list, added up message by message. */
    method TotalLines() returns (n: nat)
      ensures n == Engine.TotalLines(Abs())
    {
      var msgs := ActiveMessages();
      n := 0;
      for i := 0 to |msgs|
        invariant n == LineCount(msgs[..i])
      {
        assert msgs[..i + 1] == msgs[..i] + [msgs[i]];
        LineCountAppend(msgs[..i], msgs[i]);
        n := n + |msgs[i].indentedLines|;
      }
      assert msgs[..|msgs|] == msgs;
    }

    /** `cursorMsgIndex`, root.go:117-130: the first message whose range reaches past the cursor line. */
    method CursorMsgIndex() returns (idx: nat)
      ensures idx == OwnerIndex(Engine.ActiveMessages(Abs()), cursorLine)
    {
      var line: nat := 0;
      var msgs := ActiveMessages();
      for i := 0 to |msgs|
        invariant OwnerFrom(msgs, cursorLine, i, line) == OwnerIndex(msgs, cursorLine)
      {
        if cursorLine < line + |msgs[i].indentedLines| {
          return i;
        }
        line := line + |msgs[i].indentedLines|;
      }
      if |msgs| == 0 {
        return 0;
      }
      return |msgs| - 1;
    }

    /** `ensureCursorVisible`, root.go:132-141. */
    method EnsureCursorVisible()
      modifies this
      ensures Abs() == Engine.EnsureCursorVisible(old(Abs()))
    {
      if !paused {
        return;
      }
      if cursorLine < viewport.yOffset {
        viewport := SetYOffset(viewport, cursorLine);
      } else if cursorLine >= viewport.yOffset + viewport.height {
        viewport := SetYOffset(viewport, cursorLine - viewport.height + 1);
      }
    }

    /** `cursorUp`, root.go:143-151. */
    method CursorUp()
      modifies this
      ensures Abs() == Engine.CursorUp(old(Abs()))
    {
      if cursorLine == 0 {
        return;
      }
      cursorLine := cursorLine - 1;
      if cursorLine < viewport.yOffset + CursorBuffer && !AtTop(viewport) {
        viewport := SetYOffset(viewport, viewport.yOffset - 1);
      }
    }

    /** `cursorDown`, root.go:153-163. */
    method CursorDown()
      modifies this
      ensures Abs() == Engine.CursorDown(old(Abs()))
    {
      var total: int := TotalLines();
      if cursorLine >= total - 1 {
        return;
      }
      cursorLine := cursorLine + 1;
      var bottom := viewport.yOffset + VisibleLineCount(viewport) - CursorBuffer;
      if cursorLine >= bottom && !AtBottom(viewport) {
        viewport := SetYOffset(viewport, viewport.yOffset + 1);
      }
    }

    /**
      The two loops of `syncViewport`, root.go:323-350: every line of the
      active list written out, and the message the cursor line falls in.
    */
    method WriteList(src: seq<Message>) returns (b: seq<Segment>, current: Option<Message>)
      requires src == Engine.ActiveMessages(Abs())
      ensures b == Render(src, paused, cursorLine, viewport.width)
      ensures current == CursorHit(src, paused, cursorLine)
    {
      var c, p, w := cursorLine, paused, viewport.width;
      ghost var owner := OwnerIndex(src, c);
      b := [];
      var line: nat := 0;
      current := None;
      for i := 0 to |src|
        invariant line == Start(src, i)
        invariant b == RenderMessages(src, i, p, c, w, owner)
        invariant current == if p && 0 <= c < line then Some(src[owner]) else None
      {
        var highlight := false;
        if p {
          var idx := CursorMsgIndex();
          assert idx == owner;
          highlight := i == idx;
        }
        var lines;
        lines, line, current := WriteLines(src, i, p, c, w, owner, highlight, line, current);
        b := b + lines;
      }
      StartAll(src);
    }

    /** The start of `syncViewport`, root.go:306-318: the active list and its line total. */
    method ActiveLines() returns (src: seq<Message>, total: int)
      ensures src == Engine.ActiveMessages(Abs()) && total == LineCount(src)
    {
      if active == KindMetrics {
        src := metrics;
      } else if active == KindTraces {
        src := traces;
      } else {
        src := logs;
      }
      total := 0;
      for i := 0 to |src|
        invariant total == LineCount(src[..i])
      {
        assert src[..i + 1] == src[..i] + [src[i]];
        LineCountAppend(src[..i], src[i]);
        total := total + |src[i].indentedLines|;
      }
      assert src[..|src|] == src;
    }

    /**
      `syncViewport`, root.go:305-353: clamp the cursor onto the active
      list, then write the list out and remember the cursor's message.
    */
    method SyncViewport()
      modifies this
      ensures Abs() == Sync(old(Abs()))
    {
      var src, total := ActiveLines();
      if cursorLine >= total {
        cursorLine := total - 1;
      }
      var b, current := WriteList(src);
      SyncFields(old(Abs()), cursorLine, current, b);
      cursorMsg := current;
      viewport := SetContent(viewport, b);
    }

    /** The pause key, root.go:192-199. */
    method TogglePause()
      modifies this
      ensures Abs() == Engine.TogglePause(old(Abs()))
    {
      paused := !paused;
      if paused {
        cursorLine := viewport.yOffset + VisibleLineCount(viewport) - 1;
        if cursorLine < 0 {
          cursorLine := 0;
        }
      }
    }

    /** A window size change, root.go:221-229. */
    method Resize(width: int, height: int)
      modifies this
      ensures Abs() == Sync(Engine.Resize(old(Abs()), width, height))
    {
      var verticalMargin := 5;
      if !ready {
        viewport := New(width, height - verticalMargin);
        ready := true;
      } else {
        viewport := Viewports.Resize(viewport, width, height - verticalMargin);
      }
      SyncViewport();
    }

    /** A telemetry message, root.go:231-243: appended to its kind's list and scrolled to while live, dropped while paused. */
    method Receive(m: Message)
      modifies this
      ensures Abs() == Engine.Receive(old(Abs()), m)
    {
      if !paused {
        ghost var lists := Lists(logs, metrics, traces);
        if m.kind == KindMetrics {
          metrics := metrics + [m];
        } else if m.kind == KindTraces {
          traces := traces + [m];
        } else {
          logs := logs + [m];
        }
        assert Lists(logs, metrics, traces) == Route(lists, m);
        viewport := GotoBottom(viewport);
        SyncViewport();
      }
    }

    /** The viewport's reaction and the cursor's following of it, root.go:256-272. */
    method Follow(scroll: Option<int>)
      modifies this
      ensures Abs() == Engine.Follow(old(Abs()), scroll)
    {
      var oldOffset := viewport.yOffset;
      viewport := Scrolled(viewport, scroll);
      if paused {
        var delta := viewport.yOffset - oldOffset;
        if delta != 0 {
          cursorLine := cursorLine + delta;
        }
        if cursorLine < 0 {
          cursorLine := 0;
        }
        var total: int := TotalLines();
        if total > 0 && cursorLine >= total {
          cursorLine := total - 1;
        }
      }
    }

    /** The end of `Update`, root.go:256-277. */
    method Post(scroll: Option<int>)
      modifies this
      ensures Abs() == Engine.Post(old(Abs()), scroll)
    {
      Follow(scroll);
      if paused {
        EnsureCursorVisible();
        SyncViewport();
      }
    }

    /** A tab key, root.go:183-191: switch the list shown and re-render. */
    method Switch(kind: Kind, scroll: Option<int>)
      modifies this
      ensures Abs() == Engine.Post(Sync(old(Abs()).(active := kind)), scroll)
    {
      active := kind;
      SyncViewport();
      Post(scroll);
    }

    /** An arrow key while paused, root.go:206-215. */
    method Navigate(up: bool)
      modifies this
      ensures Abs() == Engine.Navigate(old(Abs()), up)
    {
      if up {
        CursorUp();
      } else {
        CursorDown();
      }
      EnsureCursorVisible();
      SyncViewport();
    }

    /** The key press case of `Update`, root.go:178-219; the copied text is returned as an effect. */
    method KeyPress(k: Key, scroll: Option<int>) returns (eff: Effect)
      modifies this
      ensures (Abs(), eff) == KeyStep(old(Abs()), k, scroll)
    {
      eff := NoEffect;
      if k == QuitKey {
        eff := Effect(true, false, None);
      } else if k == LogsKey {
        Switch(KindLogs, scroll);
      } else if k == MetricsKey {
        Switch(KindMetrics, scroll);
      } else if k == TracesKey {
        Switch(KindTraces, scroll);
      } else if k == PauseKey {
        TogglePause();
        Post(scroll);
      } else if paused && k == YankKey {
        if cursorMsg.Some? {
          eff := Effect(false, false, Some(Text.Join(cursorMsg.value.indentedLines, '\n')));
        }
      } else if paused && k == UpKey {
        Navigate(true);
      } else if paused && k == DownKey {
        Navigate(false);
      } else {
        Post(scroll);
      }
    }

    /** `Update`, root.go:174-278: one event, and what it asks of the outside world. */
    method Update(ev: Event, scroll: Option<int>) returns (eff: Effect)
      modifies this
      ensures (Abs(), eff) == Engine.Update(old(Abs()), ev, scroll)
    {
      match ev {
        case KeyPress(k) =>
          eff := KeyPress(k, scroll);
        case WindowSize(w, h) =>
          Resize(w, h);
          Post(scroll);
          eff := NoEffect;
        case Incoming(m) =>
          Receive(m);
          Post(scroll);
          eff := Effect(false, true, None);
        case Fault(e) =>
          err := Some(e);
          eff := Effect(true, false, None);
        case Tick =>
          Post(scroll);
          eff := NoEffect;
      }
    }
  }
}
