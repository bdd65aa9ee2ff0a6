/**
  Line arithmetic over a list of messages shown one after another: how many
  display lines they take, where each message starts, the flat list of their
  lines, and which message owns a given line (`cursorMsgIndex` of
  internal/ui/model.go and internal/ui/root.go).
*/
module LineIndex {
  import opened Wrappers
  import opened Telemetry

  /** The number of display lines of `msgs`: the sum of their line counts, added up front to back. */
  function LineCount(msgs: seq<Message>): nat
  {
    if |msgs| == 0 then 0 else LineCount(msgs[..|msgs| - 1]) + |msgs[|msgs| - 1].indentedLines|
  }

  /** The global index of the first line of message `i` (or the total, for `i == |msgs|`). */
  function Start(msgs: seq<Message>, i: nat): nat
    requires i <= |msgs|
  {
    LineCount(msgs[..i])
  }

  /** The lines of all messages, in order. */
  function Flatten(msgs: seq<Message>): seq<string>
  {
    if |msgs| == 0 then [] else Flatten(msgs[..|msgs| - 1]) + msgs[|msgs| - 1].indentedLines
  }

  /**
    The search of `cursorMsgIndex`, resumed at message `k` whose first line is
    `acc`: the first message whose range reaches past `line`; when none does,
    the last message, or 0 for an empty list.
  */
  function OwnerFrom(msgs: seq<Message>, line: int, k: nat, acc: nat): (i: nat)
    requires k <= |msgs|
    ensures |msgs| == 0 ==> i == 0
    ensures |msgs| > 0 ==> k <= i < |msgs| || (k == |msgs| && i == |msgs| - 1)
    decreases |msgs| - k
  {
    if k == |msgs| then (if |msgs| == 0 then 0 else |msgs| - 1)
    else if line < acc + |msgs[k].indentedLines| then k
    else OwnerFrom(msgs, line, k + 1, acc + |msgs[k].indentedLines|)
  }

  /** `cursorMsgIndex`: the index of the message that owns `line`. */
  function OwnerIndex(msgs: seq<Message>, line: int): (i: nat)
    ensures |msgs| == 0 ==> i == 0
    ensures |msgs| > 0 ==> i < |msgs|
  {
    OwnerFrom(msgs, line, 0, 0)
  }

  /** The message the cursor is on: the owner of `line` when `line` is a line of `msgs`, and nothing otherwise. */
  function CursorMessage(msgs: seq<Message>, line: int): (r: Option<Message>)
    ensures r.Some? <==> 0 <= line < LineCount(msgs)
  {
    if 0 <= line < LineCount(msgs) then
      LineCountEmpty(msgs);
      Some(msgs[OwnerIndex(msgs, line)])
    else None
  }

  // ---------------------------------------------------------------------
  // Facts about the line counts

  lemma LineCountEmpty(msgs: seq<Message>)
    ensures |msgs| == 0 ==> LineCount(msgs) == 0
  {
  }

  lemma LineCountAppend(msgs: seq<Message>, m: Message)
    ensures LineCount(msgs + [m]) == LineCount(msgs) + |m.indentedLines|
  {
    assert (msgs + [m])[..|msgs|] == msgs;
  }

  /** Message `i` occupies the lines from `Start(i)` up to `Start(i + 1)`. */
  lemma StartNext(msgs: seq<Message>, i: nat)
    requires i < |msgs|
    ensures Start(msgs, i + 1) == Start(msgs, i) + |msgs[i].indentedLines|
  {
    assert msgs[..i + 1][..i] == msgs[..i];
  }

  lemma StartAll(msgs: seq<Message>)
    ensures Start(msgs, |msgs|) == LineCount(msgs)
  {
    assert msgs[..|msgs|] == msgs;
  }

  /** Later messages start no earlier. */
  lemma {:induction false} StartMonotone(msgs: seq<Message>, i: nat, j: nat)
    requires i <= j <= |msgs|
    ensures Start(msgs, i) <= Start(msgs, j)
    decreases j - i
  {
    if i < j {
      StartMonotone(msgs, i, j - 1);
      StartNext(msgs, j - 1);
    }
  }

  /** The lines of the list are the lines of its messages, in order, and there are `LineCount` of them. */
  lemma {:induction false} FlattenLength(msgs: seq<Message>)
    ensures |Flatten(msgs)| == LineCount(msgs)
    decreases |msgs|
  {
    if |msgs| > 0 {
      FlattenLength(msgs[..|msgs| - 1]);
    }
  }

  lemma FlattenAppend(msgs: seq<Message>, m: Message)
    ensures Flatten(msgs + [m]) == Flatten(msgs) + m.indentedLines
  {
    assert (msgs + [m])[..|msgs|] == msgs;
  }

  /** Line `j` of message `i` is global line `Start(i) + j`. */
  lemma {:induction false} FlattenAt(msgs: seq<Message>, i: nat, j: nat)
    requires i < |msgs| && j < |msgs[i].indentedLines|
    ensures Start(msgs, i) + j < |Flatten(msgs)|
    ensures Flatten(msgs)[Start(msgs, i) + j] == msgs[i].indentedLines[j]
    decreases |msgs|
  {
    var n := |msgs| - 1;
    var init := msgs[..n];
    FlattenLength(init);
    assert Flatten(msgs) == Flatten(init) + msgs[n].indentedLines;
    if i == n {
      assert Start(msgs, i) == LineCount(init);
    } else {
      FlattenAt(init, i, j);
      assert init[..i] == msgs[..i];
    }
  }

  // ---------------------------------------------------------------------
  // The owner of a line

  /** The search resumed at `k` picks the first message from `k` on whose range reaches past `line`. */
  lemma {:induction false} OwnerFromIsFirst(msgs: seq<Message>, line: int, k: nat, i: nat)
    requires k <= i < |msgs|
    requires line < Start(msgs, i + 1)
    requires forall q :: k < q <= i ==> Start(msgs, q) <= line
    ensures OwnerFrom(msgs, line, k, Start(msgs, k)) == i
    decreases i - k
  {
    StartNext(msgs, k);
    if k < i {
      OwnerFromIsFirst(msgs, line, k + 1, i);
    }
  }

  /** When no message from `k` on reaches past `line`, the search settles on the last message. */
  lemma {:induction false} OwnerFromPastEnd(msgs: seq<Message>, line: int, k: nat)
    requires k <= |msgs|
    requires forall q :: k < q <= |msgs| ==> Start(msgs, q) <= line
    ensures OwnerFrom(msgs, line, k, Start(msgs, k)) == if |msgs| == 0 then 0 else |msgs| - 1
    decreases |msgs| - k
  {
    if k < |msgs| {
      StartNext(msgs, k);
      OwnerFromPastEnd(msgs, line, k + 1);
    }
  }

  /**
    `cursorMsgIndex` returns the `i` with `Start(i) <= line < Start(i + 1)`:
    a message holding `line` is the one chosen.
  */
  lemma OwnerIndexOfContained(msgs: seq<Message>, line: int, i: nat)
    requires i < |msgs| && Start(msgs, i) <= line < Start(msgs, i + 1)
    ensures OwnerIndex(msgs, line) == i
  {
    forall q | 0 < q <= i
      ensures Start(msgs, q) <= line
    {
      StartMonotone(msgs, q, i);
    }
    OwnerFromIsFirst(msgs, line, 0, i);
  }

  /** A line of the list lies in the range of the message that `OwnerIndex` names. */
  lemma {:induction false} OwnerIndexContains(msgs: seq<Message>, line: int)
    requires 0 <= line < LineCount(msgs)
    ensures OwnerIndex(msgs, line) < |msgs|
    ensures Start(msgs, OwnerIndex(msgs, line)) <= line < Start(msgs, OwnerIndex(msgs, line) + 1)
  {
    StartAll(msgs);
    var i := FirstReaching(msgs, line, |msgs|);
    OwnerIndexOfContained(msgs, line, i);
  }

  /** The first message whose range reaches past `line`, among the first `n`. */
  lemma {:induction false} FirstReaching(msgs: seq<Message>, line: int, n: nat) returns (i: nat)
    requires n <= |msgs| && 0 <= line < Start(msgs, n)
    ensures i < n && Start(msgs, i) <= line < Start(msgs, i + 1)
    decreases n
  {
    if n > 0 && line < Start(msgs, n - 1) {
      i := FirstReaching(msgs, line, n - 1);
    } else {
      assert n != 0;
      StartNext(msgs, n - 1);
      i := n - 1;
    }
  }

  /** Lines before the first line belong to the first message. */
  lemma OwnerIndexNegative(msgs: seq<Message>, line: int)
    requires line < 0
    ensures OwnerIndex(msgs, line) == 0
  {
  }

  /** Lines past the end belong to the last message. */
  lemma OwnerIndexPastEnd(msgs: seq<Message>, line: int)
    requires line >= LineCount(msgs)
    ensures OwnerIndex(msgs, line) == if |msgs| == 0 then 0 else |msgs| - 1
  {
    forall q | 0 < q <= |msgs|
      ensures Start(msgs, q) <= line
    {
      StartMonotone(msgs, q, |msgs|);
      StartAll(msgs);
    }
    OwnerFromPastEnd(msgs, line, 0);
  }

  /** The cursor's message holds the cursor's line: it is line `line - Start` of that message. */
  lemma CursorMessageHoldsLine(msgs: seq<Message>, line: int)
    requires 0 <= line < LineCount(msgs)
    ensures var i := OwnerIndex(msgs, line);
            CursorMessage(msgs, line) == Some(msgs[i]) &&
            |Flatten(msgs)| == LineCount(msgs) &&
            0 <= line - Start(msgs, i) < |msgs[i].indentedLines| &&
            msgs[i].indentedLines[line - Start(msgs, i)] == Flatten(msgs)[line]
  {
    OwnerIndexContains(msgs, line);
    FlattenLength(msgs);
    var i := OwnerIndex(msgs, line);
    StartNext(msgs, i);
    FlattenAt(msgs, i, line - Start(msgs, i));
  }
}
