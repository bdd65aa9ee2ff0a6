/**
  lipgloss styles, as tags. What a style does to text on the terminal belongs
  to the rendering library and is not part of this model: rendered output is a
  sequence of segments, each holding its text and the style tag it is drawn in.
*/
module Styles {

  datatype Style =
    | Unstyled
    // internal/ui: the cursor line and the JSON keys on it
    | CursorStyle
    | CursorJSONKeyStyle
    // internal/ui: the other lines of the message under the cursor, and their keys
    | MsgHighlightStyle
    | MsgHighlightJSONKeyStyle
    // internal/app: the cursor line and the rest of its message
    | AppCursorStyle
    | AppMessageStyle

  /**
    One piece of rendered output, `style.Render(text)`: plain text, or one JSON
    key picked out by the key highlighter.
  */
  datatype Segment = Base(style: Style, text: string) | Key(style: Style, text: string)

  /** The characters of the segments, with styling ignored. */
  function Texts(segs: seq<Segment>): string
  {
    if |segs| == 0 then "" else segs[0].text + Texts(segs[1..])
  }

  lemma {:induction false} TextsConcat(a: seq<Segment>, b: seq<Segment>)
    ensures Texts(a + b) == Texts(a) + Texts(b)
    decreases |a|
  {
    if |a| > 0 {
      assert (a + b)[0] == a[0];
      assert (a + b)[1..] == a[1..] + b;
      TextsConcat(a[1..], b);
    } else {
      assert a + b == b;
    }
  }

}
