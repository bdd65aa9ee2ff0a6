/**
  The scrolling viewport of the terminal library (bubbles' `viewport.Model`,
  seen through the program's `Viewport` wrapper, whose definition is not part
  of this model). Nothing here is verified against the library: these
  definitions state what the program is assumed to rely on.

  - The content is held as rendered segments; its line count is the number
    of pieces `strings.Split(content, "\n")` gives, and a fresh viewport has no
    lines at all.
  - `SetYOffset` clamps into `[0, max(0, lines - height)]`.
  - `AtTop` is an offset of 0 or less, `AtBottom` an offset at or past the
    largest one.
  - `VisibleLineCount` is the number of content lines from the offset on that
    fit in the height.
  - `GotoBottom` scrolls to the largest offset; `SetContent` does so when the
    offset points past the last line.
*/
module Viewports {
  import opened Wrappers
  import opened Styles
  import Text

  datatype Viewport = Viewport(
    width: int,
    height: int,
    yOffset: int,
    lineCount: nat,
    content: seq<Segment>)

  /** `viewport.New(width, height)`. */
  function New(width: int, height: int): Viewport
  {
    Viewport(width, height, 0, 0, [])
  }

  function MaxYOffset(v: Viewport): (m: nat)
  {
    if v.lineCount - v.height > 0 then v.lineCount - v.height else 0
  }

  /** The offset clamped into `[lo, hi]`, for `lo <= hi`. */
  function Clamp(n: int, lo: int, hi: int): (c: int)
    requires lo <= hi
    ensures lo <= c <= hi
    ensures lo <= n <= hi ==> c == n
  {
    if n < lo then lo else if n > hi then hi else n
  }

  function SetYOffset(v: Viewport, n: int): (w: Viewport)
    ensures 0 <= w.yOffset <= MaxYOffset(v)
    ensures w == v.(yOffset := w.yOffset)
  {
    v.(yOffset := Clamp(n, 0, MaxYOffset(v)))
  }

  predicate AtTop(v: Viewport)
  {
    v.yOffset <= 0
  }

  predicate AtBottom(v: Viewport)
  {
    v.yOffset >= MaxYOffset(v)
  }

  function VisibleLineCount(v: Viewport): (n: nat)
    ensures n <= v.lineCount
  {
    var rest := v.lineCount - v.yOffset;
    var n := if rest < v.height then rest else v.height;
    if n > 0 then (if n > v.lineCount then v.lineCount else n) else 0
  }

  function GotoBottom(v: Viewport): (w: Viewport)
    ensures AtBottom(w)
  {
    SetYOffset(v, MaxYOffset(v))
  }

  function SetContent(v: Viewport, content: seq<Segment>): (w: Viewport)
    ensures w.content == content && w.width == v.width && w.height == v.height
    ensures w.lineCount == |Text.Split(Texts(content), '\n')|
  {
    var w := v.(content := content, lineCount := |Text.Split(Texts(content), '\n')|);
    if w.yOffset > w.lineCount - 1 then GotoBottom(w) else w
  }

  /** A height and width change, keeping the content and the offset. */
  function Resize(v: Viewport, width: int, height: int): Viewport
  {
    v.(width := width, height := height)
  }

  /**
    The viewport's own `Update` for an event: the offset it scrolls to, if
    any. Which keys and mouse events scroll, and by how much, is the library's
    business and is left open: `scroll` is that choice.
  */
  function Scrolled(v: Viewport, scroll: Option<int>): Viewport
  {
    match scroll
    case None => v
    case Some(n) => SetYOffset(v, n)
  }
}
