/**
  `model` of internal/app/root.go, the streaming view that keeps, per kind,
  the key-highlighted text of every message received while live, and shows
  the active kind's texts joined by line breaks.

  `Step` is the model's value-level description and `AppModel` the object
  proved to update its fields as `Step` says. The message this view receives
  carries its pretty-printed text (`msg.Pretty`), so the arriving event holds
  a kind and that text. Key matching, the help and spinner widgets and the
  transport are left to their libraries: a key arrives classified as
  `Engine.Key`, `scroll` is the viewport's own reaction to the event, and the
  key style's rendering is `render`.
*/
module AppRoot {
  import opened Wrappers
  import opened Styles
  import opened Telemetry
  import opened Viewports
  import opened UiStore
  import Text
  import PrettyJSON
  import Engine

  /** Rows of the terminal not given to the viewport. */
  const VerticalMargin: int := 2

  datatype AppUi = AppUi(
    ready: bool,
    paused: bool,
    vp: Viewport,
    logs: seq<string>,
    metrics: seq<string>,
    traces: seq<string>,
    active: Kind,
    err: Option<string>)

  datatype AppEvent =
    | Press(key: Engine.Key)
    | Resized(width: int, height: int)
    | Arrived(kind: Kind, pretty: string)
    | Failed(error: string)
    | Ticked

  /** The model `Run` builds, root.go:257-263: zero values but the active kind. */
  function AppInitial(active: Kind): (r: AppUi)
    ensures forall k :: KindTexts(r, k) == []
    ensures r.active == active && !r.ready && !r.paused && r.err == None && r.vp.lineCount == 0
  {
    AppUi(false, false, New(0, 0), [], [], [], active, None)
  }

  /** The texts of kind `k`: metrics, traces, or the logs for every other kind. */
  function KindTexts(u: AppUi, k: Kind): (r: seq<string>)
    ensures r == [u.logs, u.metrics, u.traces][Bucket(k)]
  {
    if k == KindMetrics then u.metrics else if k == KindTraces then u.traces else u.logs
  }

  /** What the viewport shows for the active kind. */
  function Shown(u: AppUi): (r: seq<Segment>)
    ensures |r| == 1 && r[0].style == Unstyled
    ensures Texts(r) == Text.Join(KindTexts(u, u.active), '\n')
  {
    assert Texts([Base(Unstyled, Text.Join(KindTexts(u, u.active), '\n'))]) == Text.Join(KindTexts(u, u.active), '\n') + Texts([]);
    [Base(Unstyled, Text.Join(KindTexts(u, u.active), '\n'))]
  }

  /** `syncViewport`, root.go:201-212: the viewport shows the active kind's texts and nothing else changes. */
  function SyncContent(u: AppUi): (r: AppUi)
    ensures r == u.(vp := r.vp)
    ensures r.vp.content == Shown(u) && r.vp.width == u.vp.width && r.vp.height == u.vp.height
  {
    u.(vp := SetContent(u.vp, Shown(u)))
  }

  /** The text `s` appended to the list of kind `k`. */
  function File(u: AppUi, k: Kind, s: string): (r: AppUi)
    ensures KindTexts(r, k) == KindTexts(u, k) + [s]
    ensures forall k' :: Bucket(k') != Bucket(k) ==> KindTexts(r, k') == KindTexts(u, k')
    ensures r == u.(logs := r.logs, metrics := r.metrics, traces := r.traces)
  {
    if k == KindMetrics then u.(metrics := u.metrics + [s])
    else if k == KindTraces then u.(traces := u.traces + [s])
    else u.(logs := u.logs + [s])
  }

  /** The state change of one event, before the viewport's own update. */
  function React(u: AppUi, ev: AppEvent, render: string -> string): (r: AppUi)
    ensures r.err == if ev.Failed? then Some(ev.error) else u.err
    ensures r.paused == if ev == Press(Engine.PauseKey) then !u.paused else u.paused
    ensures !ev.Arrived? || u.paused ==> r.logs == u.logs && r.metrics == u.metrics && r.traces == u.traces
  {
    match ev
    case Press(k) =>
      if k == Engine.LogsKey then SyncContent(u.(active := KindLogs))
      else if k == Engine.MetricsKey then SyncContent(u.(active := KindMetrics))
      else if k == Engine.TracesKey then SyncContent(u.(active := KindTraces))
      else if k == Engine.PauseKey then u.(paused := !u.paused)
      else u
    case Resized(w, h) =>
      var v := if !u.ready then New(w, h - VerticalMargin) else Viewports.Resize(u.vp, w, h - VerticalMargin);
      SyncContent(u.(vp := v, ready := true))
    case Arrived(k, pretty) =>
      if u.paused then u
      else
        var v := File(u, k, PrettyJSON.HighlightKeys(pretty, render));
        SyncContent(v.(vp := GotoBottom(v.vp)))
    case Failed(e) => u.(err := Some(e))
    case Ticked => u
  }

  /** `Update`, root.go:105-172: one event and what it asks of the outside world. */
  function Step(u: AppUi, ev: AppEvent, scroll: Option<int>, render: string -> string): (r: (AppUi, Engine.Effect))
    ensures r.1.quit <==> ev == Press(Engine.QuitKey) || ev.Failed?
    ensures ev == Press(Engine.QuitKey) ==> r.0 == u
    ensures !ev.Arrived? || u.paused ==> r.0.logs == u.logs && r.0.metrics == u.metrics && r.0.traces == u.traces
  {
    if ev == Press(Engine.QuitKey) then (u, Engine.Effect(true, false, None))
    else if ev.Failed? then (React(u, ev, render), Engine.Effect(true, false, None))
    else
      var r := React(u, ev, render);
      (r.(vp := Scrolled(r.vp, scroll)), Engine.Effect(false, ev.Arrived?, None))
  }

  // ---------------------------------------------------------------------
  // What the program promises about a step

  /** The program quits exactly on the quit key and on a transport error, and asks for the next frame exactly after a message. */
  lemma StepEffects(u: AppUi, ev: AppEvent, scroll: Option<int>, render: string -> string)
    ensures Step(u, ev, scroll, render).1.quit <==> ev == Press(Engine.QuitKey) || ev.Failed?
    ensures Step(u, ev, scroll, render).1.readNext <==> ev.Arrived?
    ensures Step(u, ev, scroll, render).1.copied.None?
  {
  }

  /** The quit key changes nothing; a transport error records the error and nothing else. */
  lemma QuitAndFaultKeepState(u: AppUi, e: string, scroll: Option<int>, render: string -> string)
    ensures Step(u, Press(Engine.QuitKey), scroll, render).0 == u
    ensures Step(u, Failed(e), scroll, render).0 == u.(err := Some(e))
  {
  }

  /** The pause key flips the pause flag and touches nothing but the viewport's offset. */
  lemma PauseToggles(u: AppUi, scroll: Option<int>, render: string -> string)
    ensures Step(u, Press(Engine.PauseKey), scroll, render).0 == u.(paused := !u.paused, vp := Scrolled(u.vp, scroll))
  {
  }

  /** A message that arrives while paused is dropped. */
  lemma PausedDropsMessages(u: AppUi, k: Kind, pretty: string, scroll: Option<int>, render: string -> string)
    requires u.paused
    ensures Step(u, Arrived(k, pretty), scroll, render).0 == u.(vp := Scrolled(u.vp, scroll))
  {
  }

  /**
    A message that arrives live is highlighted and appended to the list of
    its kind, the other lists are kept, and the viewport then shows the
    active list.
  */
  lemma LiveAppends(u: AppUi, k: Kind, pretty: string, scroll: Option<int>, render: string -> string, j: Kind)
    requires !u.paused
    ensures KindTexts(Step(u, Arrived(k, pretty), scroll, render).0, k) == KindTexts(u, k) + [PrettyJSON.HighlightKeys(pretty, render)]
    ensures Bucket(j) != Bucket(k) ==> KindTexts(Step(u, Arrived(k, pretty), scroll, render).0, j) == KindTexts(u, j)
    ensures Step(u, Arrived(k, pretty), scroll, render).0.vp.content == Shown(Step(u, Arrived(k, pretty), scroll, render).0)
    ensures Step(u, Arrived(k, pretty), scroll, render).0.active == u.active
  {
  }

  /** A tab key makes its kind active and shows that kind's texts. */
  lemma SwitchShowsList(u: AppUi, key: Engine.Key, scroll: Option<int>, render: string -> string)
    requires key == Engine.LogsKey || key == Engine.MetricsKey || key == Engine.TracesKey
    ensures Step(u, Press(key), scroll, render).0.active ==
              (if key == Engine.LogsKey then KindLogs else if key == Engine.MetricsKey then KindMetrics else KindTraces)
    ensures Step(u, Press(key), scroll, render).0.vp.content == Shown(Step(u, Press(key), scroll, render).0)
    ensures KindTexts(Step(u, Press(key), scroll, render).0, KindLogs) == u.logs
  {
  }

  /** A window size sets the viewport's width and its height less the margin, and marks the model ready. */
  lemma ResizeSetsSize(u: AppUi, w: int, h: int, scroll: Option<int>, render: string -> string)
    ensures Step(u, Resized(w, h), scroll, render).0.ready
    ensures Step(u, Resized(w, h), scroll, render).0.vp.width == w
    ensures Step(u, Resized(w, h), scroll, render).0.vp.height == h - VerticalMargin
    ensures Step(u, Resized(w, h), scroll, render).0.vp.content == Shown(u)
  {
  }

  /** After `syncViewport` the viewport shows the active list. */
  lemma SyncShows(u: AppUi)
    ensures SyncContent(u).vp.content == Shown(SyncContent(u))
  {
    assert Shown(SyncContent(u)) == Shown(u);
  }

  /** The viewport's own update moves the offset only. */
  lemma ScrolledKeepsShown(r: AppUi, scroll: Option<int>)
    requires r.vp.content == Shown(r)
    ensures r.(vp := Scrolled(r.vp, scroll)).vp.content == Shown(r.(vp := Scrolled(r.vp, scroll)))
  {
    assert Shown(r.(vp := Scrolled(r.vp, scroll))) == Shown(r);
  }

  lemma ReactKeepsShown(u: AppUi, ev: AppEvent, render: string -> string)
    requires u.vp.content == Shown(u)
    ensures React(u, ev, render).vp.content == Shown(React(u, ev, render))
  {
    match ev
    case Press(k) =>
      if k == Engine.LogsKey {
        SyncShows(u.(active := KindLogs));
      } else if k == Engine.MetricsKey {
        SyncShows(u.(active := KindMetrics));
      } else if k == Engine.TracesKey {
        SyncShows(u.(active := KindTraces));
      } else if k == Engine.PauseKey {
        assert Shown(u.(paused := !u.paused)) == Shown(u);
      }
    case Resized(w, h) =>
      var v := if !u.ready then New(w, h - VerticalMargin) else Viewports.Resize(u.vp, w, h - VerticalMargin);
      SyncShows(u.(vp := v, ready := true));
    case Arrived(k, pretty) =>
      if !u.paused {
        var v := File(u, k, PrettyJSON.HighlightKeys(pretty, render));
        SyncShows(v.(vp := GotoBottom(v.vp)));
      }
    case Failed(e) =>
      assert Shown(u.(err := Some(e))) == Shown(u);
    case Ticked =>
  }

  /**
    Once the viewport shows the active list it keeps doing so: every step
    that changes the lists or the active kind re-renders, and the others keep
    the content.
  */
  lemma StepKeepsShown(u: AppUi, ev: AppEvent, scroll: Option<int>, render: string -> string)
    requires u.vp.content == Shown(u)
    ensures Step(u, ev, scroll, render).0.vp.content == Shown(Step(u, ev, scroll, render).0)
  {
    ReactKeepsShown(u, ev, render);
    if ev != Press(Engine.QuitKey) && !ev.Failed? {
      ScrolledKeepsShown(React(u, ev, render), scroll);
    }
  }

  /** The live text of a kind is its messages' highlighted texts: what the lemma about one step gives, over a run of live messages. */
  function Highlighted(ps: seq<string>, render: string -> string): seq<string>
  {
    if |ps| == 0 then [] else Highlighted(ps[..|ps| - 1], render) + [PrettyJSON.HighlightKeys(ps[|ps| - 1], render)]
  }

  /** The state after the messages `ps` of kind `k` arrive live, one after another. */
  function ArriveAll(u: AppUi, k: Kind, ps: seq<string>, render: string -> string): AppUi
  {
    if |ps| == 0 then u else Step(ArriveAll(u, k, ps[..|ps| - 1], render), Arrived(k, ps[|ps| - 1]), None, render).0
  }

  /** Live messages of one kind are kept in arrival order, each highlighted. */
  lemma {:induction false} ArriveAllAppends(u: AppUi, k: Kind, ps: seq<string>, render: string -> string)
    requires !u.paused
    ensures !ArriveAll(u, k, ps, render).paused
    ensures KindTexts(ArriveAll(u, k, ps, render), k) == KindTexts(u, k) + Highlighted(ps, render)
    decreases |ps|
  {
    if |ps| > 0 {
      var p := ps[..|ps| - 1];
      var v := ArriveAll(u, k, p, render);
      ArriveAllAppends(u, k, p, render);
      LiveAppends(v, k, ps[|ps| - 1], None, render, k);
      assert ArriveAll(u, k, ps, render) == Step(v, Arrived(k, ps[|ps| - 1]), None, render).0;
      assert Highlighted(ps, render) == Highlighted(p, render) + [PrettyJSON.HighlightKeys(ps[|ps| - 1], render)];
    }
  }

  class AppModel {
    var ready: bool
    var paused: bool
    var viewport: Viewport
    var logs: seq<string>
    var metrics: seq<string>
    var traces: seq<string>
    var active: Kind
    var err: Option<string>

    ghost function Abs(): AppUi
      reads this
    {
      AppUi(ready, paused, viewport, logs, metrics, traces, active, err)
    }

    /** The model `Run` builds, root.go:257-263. */
    constructor (initial: Kind)
      ensures Abs() == AppInitial(initial)
    {
      ready, paused := false, false;
      viewport := New(0, 0);
      logs, metrics, traces := [], [], [];
      active := initial;
      err := None;
    }

    /** `syncViewport`, root.go:201-212. */
    method SyncViewport()
      modifies this
      ensures Abs() == SyncContent(old(Abs()))
    {
      var src: seq<string>;
      if active == KindMetrics {
        src := metrics;
      } else if active == KindTraces {
        src := traces;
      } else {
        src := logs;
      }
      viewport := SetContent(viewport, [Base(Unstyled, Text.Join(src, '\n'))]);
    }

    /** The key press case of `Update`, root.go:110-125, for every key but quit. */
    method KeyPress(k: Engine.Key, render: string -> string)
      modifies this
      ensures Abs() == React(old(Abs()), Press(k), render)
    {
      if k == Engine.LogsKey {
        active := KindLogs;
        SyncViewport();
      } else if k == Engine.MetricsKey {
        active := KindMetrics;
        SyncViewport();
      } else if k == Engine.TracesKey {
        active := KindTraces;
        SyncViewport();
      } else if k == Engine.PauseKey {
        paused := !paused;
      }
    }

    /** The window size case of `Update`, root.go:130-138. */
    method Resize(w: int, h: int, render: string -> string)
      modifies this
      ensures Abs() == React(old(Abs()), Resized(w, h), render)
    {
      if !ready {
        viewport := New(w, h - VerticalMargin);
        ready := true;
      } else {
        viewport := Viewports.Resize(viewport, w, h - VerticalMargin);
      }
      SyncViewport();
    }

    /** The message case of `Update`, root.go:140-153. */
    method Receive(k: Kind, pretty: string, render: string -> string)
      modifies this
      ensures Abs() == React(old(Abs()), Arrived(k, pretty), render)
    {
      if !paused {
        ghost var filed := File(Abs(), k, PrettyJSON.HighlightKeys(pretty, render));
        var stylized := PrettyJSON.HighlightKeys(pretty, render);
        if k == KindMetrics {
          metrics := metrics + [stylized];
        } else if k == KindTraces {
          traces := traces + [stylized];
        } else {
          logs := logs + [stylized];
        }
        assert Abs() == filed;
        viewport := GotoBottom(viewport);
        SyncViewport();
      }
    }

    /** `Update`, root.go:105-172. */
    method Update(ev: AppEvent, scroll: Option<int>, render: string -> string) returns (eff: Engine.Effect)
      modifies this
      ensures (Abs(), eff) == Step(old(Abs()), ev, scroll, render)
    {
      if ev == Press(Engine.QuitKey) {
        return Engine.Effect(true, false, None);
      }
      match ev {
        case Press(k) =>
          KeyPress(k, render);
          eff := Engine.Effect(false, false, None);
        case Resized(w, h) =>
          Resize(w, h, render);
          eff := Engine.Effect(false, false, None);
        case Arrived(k, pretty) =>
          Receive(k, pretty, render);
          eff := Engine.Effect(false, true, None);
        case Failed(e) =>
          err := Some(e);
          return Engine.Effect(true, false, None);
        case Ticked =>
          eff := Engine.Effect(false, false, None);
      }
      viewport := Scrolled(viewport, scroll);
    }
  }
}
