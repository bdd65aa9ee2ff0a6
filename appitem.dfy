/**
  `item` of internal/app/item.go: a message with its key-highlighted text and
  that text cut into display lines. The message type of this model has no
  pretty-printed text of its own, so the text is an explicit input.
*/
module AppItem {
  import opened Telemetry
  import Text
  import PrettyJSON

  datatype Item = Item(message: Message, styled: string, lines: seq<string>)

  /** `newItem`, item.go:17-20. */
  function NewItem(m: Message, pretty: string, render: string -> string): (it: Item)
    ensures it.message == m
    ensures Text.Join(it.lines, '\n') == it.styled
    ensures |it.lines| == Text.Count(it.styled, '\n') + 1
    ensures forall i :: 0 <= i < |it.lines| ==> '\n' !in it.lines[i]
  {
    var styled := PrettyJSON.HighlightKeys(pretty, render);
    Text.JoinSplit(styled, '\n');
    Text.SplitCount(styled, '\n');
    Item(m, styled, Text.Split(styled, '\n'))
  }

  /** The styled text is the highlighted pretty text, and the lines are exactly its pieces between line breaks. */
  lemma NewItemRoundTrip(m: Message, pretty: string, render: string -> string, lines: seq<string>)
    requires |lines| >= 1 && forall i :: 0 <= i < |lines| ==> '\n' !in lines[i]
    ensures NewItem(m, pretty, render).styled == PrettyJSON.HighlightKeys(pretty, render)
    ensures NewItem(m, pretty, render).lines == lines <==> PrettyJSON.HighlightKeys(pretty, render) == Text.Join(lines, '\n')
  {
    var it := NewItem(m, pretty, render);
    if it.styled == Text.Join(lines, '\n') {
      Text.SplitJoin(lines, '\n');
    }
  }
}
