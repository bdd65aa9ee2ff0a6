/**
  `Event.MarshalTo` of cmd/handler.go: an event written to a writer in the
  line format of an event stream (section 9.2.5 of the WHATWG HTML Living
  Standard), `id:`, one `data:` line per line of the data, `event:`,
  `retry:`, a `comment:` line (the program's own field name, not the
  standard's `:` prefix), and the blank line ending the event. Byte slices
  are strings here, one character per byte.

  The writer is an object whose output grows with each successful write and
  whose `failAt`-th call, if any, fails and writes nothing.
*/
module ServerSentEvents {
  import opened Wrappers
  import Text

  datatype Event = Event(id: int, data: string, event: string, retry: string, comment: string)

  function IdLine(id: int): string
  {
    "id: " + Text.IntDecimal(id) + "\n"
  }

  /** One field line, `tag` then the value and a line break. */
  function Line(tag: string, v: string): string
  {
    tag + v + "\n"
  }

  /** The `data:` lines of the pieces, in order. */
  function DataLines(ps: seq<string>): seq<string>
  {
    if |ps| == 0 then [] else [Line("data: ", ps[0])] + DataLines(ps[1..])
  }

  /** The line of an optional field: none when the value is empty. */
  function Optional(tag: string, v: string): seq<string>
  {
    if |v| > 0 then [Line(tag, v)] else []
  }

  /** The data-related writes: the id, the data lines, the event and the retry. */
  function DataPart(e: Event): (r: seq<string>)
    ensures r == [] <==> |e.data| == 0
    ensures |e.data| > 0 ==> r[0] == IdLine(e.id)
  {
    if |e.data| > 0 then
      [IdLine(e.id)] + DataLines(Text.Split(e.data, '\n')) + Optional("event: ", e.event) + Optional("retry: ", e.retry)
    else []
  }

  /** The writes `MarshalTo` makes, one string per write, when none fails. */
  function Fields(e: Event): (r: seq<string>)
    ensures |e.data| > 0 ==> DataPart(e) <= r
    ensures |e.comment| > 0 ==> |r| >= 2 && r[|r| - 2] == Line("comment: ", e.comment)
  {
    if |e.data| == 0 && |e.comment| == 0 then []
    else DataPart(e) + Optional("comment: ", e.comment) + ["\n"]
  }

  /** How many of `n` writes, the first being call number `calls0`, succeed on a writer failing at call `failAt`. */
  function Succeeding(n: nat, calls0: nat, failAt: Option<nat>): nat
  {
    if failAt.Some? && calls0 <= failAt.value < calls0 + n then failAt.value - calls0 else n
  }

  class Writer {
    var out: string
    var calls: nat
    const failAt: Option<nat>
    const failure: string

    constructor (failAt: Option<nat>, failure: string)
      ensures out == [] && calls == 0 && this.failAt == failAt && this.failure == failure
    {
      out, calls := [], 0;
      this.failAt, this.failure := failAt, failure;
    }

    /** One `fmt.Fprintf` on the writer. */
    method Write(s: string) returns (err: Option<string>)
      modifies this
      ensures calls == old(calls) + 1
      ensures err.None? <==> failAt != Some(old(calls))
      ensures err.None? ==> out == old(out) + s
      ensures err.Some? ==> err == Some(failure) && out == old(out)
    {
      calls := calls + 1;
      if failAt == Some(calls - 1) {
        return Some(failure);
      }
      out := out + s;
      return None;
    }
  }

  /** The writes `done` succeeded, one after another, from call `calls0` on. */
  ghost predicate Progress(w: Writer, out0: string, calls0: nat, done: seq<string>)
    reads w
  {
    w.out == out0 + Text.Concat(done) && w.calls == calls0 + |done| &&
    (w.failAt.None? || w.failAt.value < calls0 || w.failAt.value >= w.calls)
  }

  /**
    What `MarshalTo` leaves behind for the writes `fs`: the output of the
    writes that succeeded, an error exactly when one failed, and the number of
    calls made, the failing one included.
  */
  ghost predicate Outcome(w: Writer, out0: string, calls0: nat, fs: seq<string>, err: Option<string>)
    reads w
  {
    var m := Succeeding(|fs|, calls0, w.failAt);
    w.out == out0 + Text.Concat(fs[..m]) &&
    (err.Some? <==> m < |fs|) &&
    (err.Some? ==> err == Some(w.failure)) &&
    w.calls == calls0 + m + (if err.Some? then 1 else 0)
  }

  /** The next write `s` of `fs`, after the writes `done`. */
  method Put(w: Writer, s: string, ghost out0: string, ghost calls0: nat, ghost done: seq<string>, ghost rest: seq<string>, ghost fs: seq<string>)
    returns (err: Option<string>)
    requires Progress(w, out0, calls0, done) && done + rest == fs && |rest| > 0 && rest[0] == s
    modifies w
    ensures err.None? ==> Progress(w, out0, calls0, done + [s]) && (done + [s]) + rest[1..] == fs
    ensures err.Some? ==> Outcome(w, out0, calls0, fs, err)
  {
    err := w.Write(s);
    assert fs[..|done|] == (done + rest)[..|done|];
    Text.ConcatAppend(done, s);
  }

  /** The loop over the data pieces, handler.go:57-62. */
  method PutData(w: Writer, sd: seq<string>, ghost out0: string, ghost calls0: nat, ghost done0: seq<string>, ghost after: seq<string>, ghost fs: seq<string>)
    returns (err: Option<string>, ghost done: seq<string>)
    requires Progress(w, out0, calls0, done0) && done0 + DataLines(sd) + after == fs
    modifies w
    ensures err.None? ==> Progress(w, out0, calls0, done) && done + after == fs
    ensures err.Some? ==> Outcome(w, out0, calls0, fs, err)
  {
    done := done0;
    assert sd[0..] == sd;
    for i := 0 to |sd|
      invariant Progress(w, out0, calls0, done) && done + (DataLines(sd[i..]) + after) == fs
    {
      var s := Line("data: ", sd[i]);
      assert sd[i..][1..] == sd[i + 1..];
      err := Put(w, s, out0, calls0, done, DataLines(sd[i..]) + after, fs);
      if err.Some? {
        return;
      }
      done := done + [s];
    }
    assert DataLines(sd[|sd|..]) == [];
    err := None;
  }

  /** Every write of `fs` succeeded. */
  lemma Completed(w: Writer, out0: string, calls0: nat, fs: seq<string>)
    requires Progress(w, out0, calls0, fs)
    ensures Outcome(w, out0, calls0, fs, None)
  {
    assert fs[..|fs|] == fs;
  }

  /** An optional field: its line written when the value is non-empty, handler.go:63-79. */
  method PutOptional(w: Writer, tag: string, v: string, ghost out0: string, ghost calls0: nat, ghost done0: seq<string>, ghost rest: seq<string>, ghost fs: seq<string>)
    returns (err: Option<string>, ghost done: seq<string>)
    requires Progress(w, out0, calls0, done0) && done0 + (Optional(tag, v) + rest) == fs
    modifies w
    ensures err.None? ==> Progress(w, out0, calls0, done) && done + rest == fs
    ensures err.Some? ==> Outcome(w, out0, calls0, fs, err)
  {
    done := done0;
    if |v| > 0 {
      var s := Line(tag, v);
      err := Put(w, s, out0, calls0, done, [s] + rest, fs);
      if err.Some? {
        return;
      }
      done := done + [s];
    } else {
      assert Optional(tag, v) + rest == rest;
      err := None;
    }
  }

  /** The id line and the data lines, handler.go:54-62. */
  method PutHead(w: Writer, id: int, sd: seq<string>, ghost out0: string, ghost calls0: nat, ghost done0: seq<string>, ghost rest: seq<string>, ghost fs: seq<string>)
    returns (err: Option<string>, ghost done: seq<string>)
    requires Progress(w, out0, calls0, done0) && done0 + ([IdLine(id)] + (DataLines(sd) + rest)) == fs
    modifies w
    ensures err.None? ==> Progress(w, out0, calls0, done) && done + rest == fs
    ensures err.Some? ==> Outcome(w, out0, calls0, fs, err)
  {
    done := done0;
    var s := IdLine(id);
    err := Put(w, s, out0, calls0, done, [s] + (DataLines(sd) + rest), fs);
    if err.Some? {
      return;
    }
    err, done := PutData(w, sd, out0, calls0, done + [s], rest, fs);
  }

  lemma DataPartShape(e: Event, rest: seq<string>)
    requires |e.data| > 0
    ensures DataPart(e) + rest ==
      [IdLine(e.id)] + (DataLines(Text.Split(e.data, '\n')) + (Optional("event: ", e.event) + (Optional("retry: ", e.retry) + rest)))
  {
  }

  /** The data-related writes, handler.go:53-73, for an event with data. */
  method PutDataPart(e: Event, w: Writer, ghost out0: string, ghost calls0: nat, ghost done0: seq<string>, ghost rest: seq<string>, ghost fs: seq<string>)
    returns (err: Option<string>, ghost done: seq<string>)
    requires |e.data| > 0
    requires Progress(w, out0, calls0, done0) && done0 + (DataPart(e) + rest) == fs
    modifies w
    ensures err.None? ==> Progress(w, out0, calls0, done) && done + rest == fs
    ensures err.Some? ==> Outcome(w, out0, calls0, fs, err)
  {
    var sd := Text.Split(e.data, '\n');
    ghost var r2 := Optional("retry: ", e.retry) + rest;
    ghost var after := Optional("event: ", e.event) + r2;
    DataPartShape(e, rest);
    err, done := PutHead(w, e.id, sd, out0, calls0, done0, after, fs);
    if err.Some? {
      return;
    }
    err, done := PutOptional(w, "event: ", e.event, out0, calls0, done, r2, fs);
    if err.Some? {
      return;
    }
    err, done := PutOptional(w, "retry: ", e.retry, out0, calls0, done, rest, fs);
  }

  /**
    `MarshalTo`, handler.go:48-86: the writes of `Fields(e)` in order, up to
    and including the first that fails, whose error is returned.
  */
  method MarshalTo(e: Event, w: Writer) returns (err: Option<string>)
    modifies w
    ensures Outcome(w, old(w.out), old(w.calls), Fields(e), err)
  {
    ghost var out0, calls0 := w.out, w.calls;
    ghost var fs := Fields(e);
    ghost var done: seq<string> := [];
    if |e.data| == 0 && |e.comment| == 0 {
      return None;
    }
    ghost var tail := Optional("comment: ", e.comment) + ["\n"];
    if |e.data| > 0 {
      assert done + (DataPart(e) + tail) == fs;
      err, done := PutDataPart(e, w, out0, calls0, done, tail, fs);
      if err.Some? {
        return;
      }
    } else {
      assert done + tail == fs;
    }
    err, done := PutOptional(w, "comment: ", e.comment, out0, calls0, done, ["\n"], fs);
    if err.Some? {
      return;
    }
    assert done + ["\n"] == fs;
    err := Put(w, "\n", out0, calls0, done, ["\n"], fs);
    if err.Some? {
      return;
    }
    Completed(w, out0, calls0, fs);
    return None;
  }

  // ---------------------------------------------------------------------
  // The layout of the writes

  /** Nothing is written exactly when the event has neither data nor a comment. */
  lemma FieldsEmpty(e: Event)
    ensures Fields(e) == [] <==> |e.data| == 0 && |e.comment| == 0
    ensures |e.data| > 0 || |e.comment| > 0 ==> Fields(e)[|Fields(e)| - 1] == "\n"
  {
  }

  lemma {:induction false} DataLinesAt(ps: seq<string>, k: nat)
    requires k < |ps|
    ensures |DataLines(ps)| == |ps|
    ensures DataLines(ps)[k] == Line("data: ", ps[k])
    decreases |ps|
  {
    if k > 0 {
      DataLinesAt(ps[1..], k - 1);
    } else if |ps| > 1 {
      DataLinesAt(ps[1..], 0);
    }
  }

  lemma {:induction false} DataLinesLength(ps: seq<string>)
    ensures |DataLines(ps)| == |ps|
    decreases |ps|
  {
    if |ps| > 0 {
      DataLinesLength(ps[1..]);
    }
  }

  /**
    With data, the id line comes first, then one data line per line of the
    data, in order, then the event line and the retry line when they are
    non-empty, then the comment line when it is non-empty, and the blank line
    last. The data lines are one more than the data's line breaks, and they
    join back into the data.
  */
  lemma FieldsLayout(e: Event, k: nat)
    requires |e.data| > 0
    ensures var ps, fs := Text.Split(e.data, '\n'), Fields(e);
      var n, ne, nr, nc := |ps|, |Optional("event: ", e.event)|, |Optional("retry: ", e.retry)|, |Optional("comment: ", e.comment)|;
      n == Text.Count(e.data, '\n') + 1 &&
      Text.Join(ps, '\n') == e.data &&
      |fs| == 2 + n + ne + nr + nc &&
      fs[0] == IdLine(e.id) &&
      (k < n ==> fs[1 + k] == Line("data: ", ps[k])) &&
      (|e.event| > 0 ==> fs[1 + n] == Line("event: ", e.event)) &&
      (|e.retry| > 0 ==> fs[1 + n + ne] == Line("retry: ", e.retry)) &&
      (|e.comment| > 0 ==> fs[|fs| - 2] == Line("comment: ", e.comment)) &&
      fs[|fs| - 1] == "\n"
  {
    var ps := Text.Split(e.data, '\n');
    Text.SplitCount(e.data, '\n');
    Text.JoinSplit(e.data, '\n');
    DataLinesLength(ps);
    if k < |ps| {
      DataLinesAt(ps, k);
    }
  }

  /** Without data, the id, event and retry are not written: only the comment and the blank line, if there is a comment. */
  lemma NoDataIgnoresEventAndRetry(e: Event, event: string, retry: string)
    requires |e.data| == 0
    ensures Fields(e.(event := event, retry := retry)) == Fields(e)
    ensures Fields(e) == if |e.comment| > 0 then [Line("comment: ", e.comment), "\n"] else []
  {
  }

  // ---------------------------------------------------------------------
  // Reading the writes back

  /** What a reader of the writes has seen: the last id, the data lines, the last event, retry and comment, and whether the event ended. */
  datatype Seen = Seen(id: Option<int>, data: seq<string>, event: string, retry: string, comment: string, ended: bool)

  const Nothing: Seen := Seen(None, [], "", "", "", false)

  /** The value of a field line with the given tag. */
  function Value(w: string, tag: string): Option<string>
  {
    if |w| > |tag| && w[..|tag|] == tag && w[|w| - 1] == '\n' then Some(w[|tag|..|w| - 1]) else None
  }

  predicate AllDigits(s: string)
  {
    forall k :: 0 <= k < |s| ==> '0' <= s[k] <= '9'
  }

  /** A string of decimal digits read as a number. */
  function ReadNat(s: string): Option<nat>
  {
    if |s| > 0 && AllDigits(s) then Some(Text.DecimalValue(s)) else None
  }

  /** The reading side of `%d`: an optional minus sign, then digits. */
  function ReadInt(s: string): Option<int>
  {
    if |s| > 1 && s[0] == '-' then
      match ReadNat(s[1..])
      case Some(n) => Some(0 - n)
      case None => None
    else
      match ReadNat(s)
      case Some(n) => Some(n)
      case None => None
  }

  /** One write as a reader takes it, the field told apart by its first letter. */
  function Absorb(r: Seen, w: string): Seen
  {
    if w == "\n" || |w| == 0 then r.(ended := r.ended || w == "\n")
    else if w[0] == 'i' then
      (match Value(w, "id: ")
       case Some(v) => (match ReadInt(v) case Some(n) => r.(id := Some(n)) case None => r)
       case None => r)
    else if w[0] == 'd' then
      (match Value(w, "data: ") case Some(v) => r.(data := r.data + [v]) case None => r)
    else if w[0] == 'e' then
      (match Value(w, "event: ") case Some(v) => r.(event := v) case None => r)
    else if w[0] == 'r' then
      (match Value(w, "retry: ") case Some(v) => r.(retry := v) case None => r)
    else if w[0] == 'c' then
      (match Value(w, "comment: ") case Some(v) => r.(comment := v) case None => r)
    else r
  }

  /** The writes `ws` as a reader takes them, one after another. */
  function Read(ws: seq<string>): Seen
  {
    if |ws| == 0 then Nothing else Absorb(Read(ws[..|ws| - 1]), ws[|ws| - 1])
  }

  lemma ReadSnoc(ws: seq<string>, w: string)
    ensures Read(ws + [w]) == Absorb(Read(ws), w)
  {
    assert (ws + [w])[..|ws|] == ws;
  }

  /** A field line gives back its value under its own tag. */
  lemma ValueOfLine(tag: string, v: string)
    requires |tag| > 0
    ensures Value(Line(tag, v), tag) == Some(v)
    ensures Line(tag, v)[0] == tag[0] && Line(tag, v) != "\n"
  {
    var w := Line(tag, v);
    assert w[..|tag|] == tag;
    assert w[|tag|..|w| - 1] == v;
  }

  lemma ReadNatOfDecimal(n: nat)
    ensures ReadNat(Text.NatDecimal(n)) == Some(n)
  {
    Text.DecimalRoundTrip(n);
  }

  lemma SignedDigits(d: string)
    requires |d| > 0
    ensures |"-" + d| > 1 && ("-" + d)[0] == '-' && ("-" + d)[1..] == d
  {
  }

  lemma ReadIntOfNegative(i: int)
    requires i < 0
    ensures ReadInt("-" + Text.NatDecimal(-i)) == Some(i)
  {
    var d := Text.NatDecimal(-i);
    SignedDigits(d);
    ReadNatOfDecimal(-i);
    assert ReadNat(("-" + d)[1..]) == Some(-i);
  }

  lemma ReadIntOfNatural(i: nat)
    ensures ReadInt(Text.NatDecimal(i)) == Some(i)
  {
    ReadNatOfDecimal(i);
  }

  /** `%d` read back. */
  lemma ReadIntOfDecimal(i: int)
    ensures ReadInt(Text.IntDecimal(i)) == Some(i)
  {
    if i < 0 {
      ReadIntOfNegative(i);
    } else {
      ReadIntOfNatural(i);
    }
  }

  lemma AbsorbId(r: Seen, id: int)
    ensures Absorb(r, IdLine(id)) == r.(id := Some(id))
  {
    assert IdLine(id) == Line("id: ", Text.IntDecimal(id));
    ValueOfLine("id: ", Text.IntDecimal(id));
    ReadIntOfDecimal(id);
  }

  lemma AbsorbData(r: Seen, p: string)
    ensures Absorb(r, Line("data: ", p)) == r.(data := r.data + [p])
  {
    ValueOfLine("data: ", p);
  }

  lemma AbsorbEvent(r: Seen, v: string)
    ensures Absorb(r, Line("event: ", v)) == r.(event := v)
  {
    ValueOfLine("event: ", v);
  }

  lemma AbsorbRetry(r: Seen, v: string)
    ensures Absorb(r, Line("retry: ", v)) == r.(retry := v)
  {
    ValueOfLine("retry: ", v);
  }

  lemma AbsorbComment(r: Seen, v: string)
    ensures Absorb(r, Line("comment: ", v)) == r.(comment := v)
  {
    ValueOfLine("comment: ", v);
  }

  /** One data line read. */
  lemma ReadDataLine(ws: seq<string>, p: string)
    ensures Read(ws + [Line("data: ", p)]) == Read(ws).(data := Read(ws).data + [p])
  {
    ReadSnoc(ws, Line("data: ", p));
    AbsorbData(Read(ws), p);
  }

  lemma DataLinesCons(ws: seq<string>, ps: seq<string>)
    requires |ps| > 0
    ensures ws + DataLines(ps) == (ws + [Line("data: ", ps[0])]) + DataLines(ps[1..])
  {
    var x, t := Line("data: ", ps[0]), DataLines(ps[1..]);
    assert DataLines(ps) == [x] + t;
    assert ws + ([x] + t) == (ws + [x]) + t;
  }

  lemma ConsTail(a: seq<string>, ps: seq<string>)
    requires |ps| > 0
    ensures a + [ps[0]] + ps[1..] == a + ps
  {
    assert ps == [ps[0]] + ps[1..];
  }

  lemma {:induction false} ReadDataLines(ws: seq<string>, ps: seq<string>)
    ensures Read(ws + DataLines(ps)) == Read(ws).(data := Read(ws).data + ps)
    decreases |ps|
  {
    if |ps| == 0 {
      assert ws + DataLines(ps) == ws;
    } else {
      var ws1 := ws + [Line("data: ", ps[0])];
      DataLinesCons(ws, ps);
      ReadDataLines(ws1, ps[1..]);
      ReadDataLine(ws, ps[0]);
      ConsTail(Read(ws).data, ps);
    }
  }

  /** An optional field read: set when written, kept otherwise. */
  lemma ReadOptional(ws: seq<string>, tag: string, v: string)
    requires tag == "event: " || tag == "retry: " || tag == "comment: "
    ensures |v| == 0 ==> Read(ws + Optional(tag, v)) == Read(ws)
    ensures |v| > 0 && tag == "event: " ==> Read(ws + Optional(tag, v)) == Read(ws).(event := v)
    ensures |v| > 0 && tag == "retry: " ==> Read(ws + Optional(tag, v)) == Read(ws).(retry := v)
    ensures |v| > 0 && tag == "comment: " ==> Read(ws + Optional(tag, v)) == Read(ws).(comment := v)
  {
    if |v| == 0 {
      assert ws + Optional(tag, v) == ws;
    } else {
      ReadSnoc(ws, Line(tag, v));
      if tag == "event: " {
        AbsorbEvent(Read(ws), v);
      } else if tag == "retry: " {
        AbsorbRetry(Read(ws), v);
      } else {
        AbsorbComment(Read(ws), v);
      }
    }
  }

  /** The data part read back: the id, the data's lines, the event and the retry. */
  lemma ReadDataPart(e: Event)
    requires |e.data| > 0
    ensures Read(DataPart(e)) ==
      Nothing.(id := Some(e.id), data := Text.Split(e.data, '\n'), event := e.event, retry := e.retry)
  {
    var ps := Text.Split(e.data, '\n');
    var a := [IdLine(e.id)];
    var b := a + DataLines(ps);
    var c := b + Optional("event: ", e.event);
    assert DataPart(e) == c + Optional("retry: ", e.retry);
    assert Read(a) == Nothing.(id := Some(e.id)) by {
      assert a == [] + [IdLine(e.id)];
      ReadSnoc([], IdLine(e.id));
      AbsorbId(Nothing, e.id);
    }
    ReadDataLines(a, ps);
    ReadOptional(b, "event: ", e.event);
    ReadOptional(c, "retry: ", e.retry);
  }

  /**
    The writes read back give the event: its id, its data lines (which join
    back into the data), its event, retry and comment fields, and the end of
    the event; without data only the comment comes through.
  */
  lemma ReadBack(e: Event)
    ensures Read(Fields(e)).ended <==> |e.data| > 0 || |e.comment| > 0
    ensures Read(Fields(e)).id == (if |e.data| > 0 then Some(e.id) else None)
    ensures Read(Fields(e)).data == (if |e.data| > 0 then Text.Split(e.data, '\n') else [])
    ensures |e.data| > 0 ==> Text.Join(Read(Fields(e)).data, '\n') == e.data
    ensures Read(Fields(e)).event == (if |e.data| > 0 then e.event else "")
    ensures Read(Fields(e)).retry == (if |e.data| > 0 then e.retry else "")
    ensures Read(Fields(e)).comment == e.comment
  {
    if |e.data| > 0 || |e.comment| > 0 {
      var d := DataPart(e);
      var c := d + Optional("comment: ", e.comment);
      assert Fields(e) == c + ["\n"];
      if |e.data| > 0 {
        ReadDataPart(e);
        Text.JoinSplit(e.data, '\n');
      } else {
        assert d == [];
      }
      ReadOptional(d, "comment: ", e.comment);
      ReadSnoc(c, "\n");
    }
  }

  // ---------------------------------------------------------------------
  // The writes on the byte stream

  /** A write that is exactly one line of the stream: text without a line break, then the line break. */
  predicate OneLine(w: string)
  {
    |w| > 0 && w[|w| - 1] == '\n' && '\n' !in w[..|w| - 1]
  }

  /** A write without its final character, the line break of a one-line write. */
  function Chomp(w: string): string
  {
    if |w| == 0 then w else w[..|w| - 1]
  }

  /** The texts of the writes, each without its final character. */
  function LineTexts(ws: seq<string>): (ls: seq<string>)
    ensures |ls| == |ws|
    ensures forall i :: 0 <= i < |ws| ==> ls[i] == Chomp(ws[i])
  {
    if |ws| == 0 then []
    else LineTexts(ws[..|ws| - 1]) + [Chomp(ws[|ws| - 1])]
  }

  /** One-line writes put on the stream are their texts, each followed by a line break. */
  lemma {:induction false} ConcatOneLines(ws: seq<string>)
    requires forall i :: 0 <= i < |ws| ==> OneLine(ws[i])
    ensures Text.Concat(ws) == Text.Terminated(LineTexts(ws), '\n')
    decreases |ws|
  {
    if |ws| > 0 {
      var init, last := ws[..|ws| - 1], ws[|ws| - 1];
      ConcatOneLines(init);
      var ls := LineTexts(ws);
      assert ls[..|ls| - 1] == LineTexts(init);
      assert last == last[..|last| - 1] + ['\n'];
    }
  }

  lemma LineIsOneLine(tag: string, v: string)
    requires '\n' !in tag && '\n' !in v
    ensures OneLine(Line(tag, v))
  {
    assert Line(tag, v)[..|Line(tag, v)| - 1] == tag + v;
  }

  lemma IdLineIsOneLine(id: int)
    ensures OneLine(IdLine(id))
  {
    var digits := Text.IntDecimal(id);
    assert '\n' !in digits by {
      if id < 0 {
        assert digits == "-" + Text.NatDecimal(-id);
        assert digits[1..] == Text.NatDecimal(-id);
        assert forall i :: 0 <= i < |digits| ==> digits[i] != '\n';
      }
    }
    LineIsOneLine("id: ", digits);
  }

  lemma {:induction false} DataLinesAreOneLine(ps: seq<string>)
    requires forall i :: 0 <= i < |ps| ==> '\n' !in ps[i]
    ensures forall i :: 0 <= i < |DataLines(ps)| ==> OneLine(DataLines(ps)[i])
  {
    DataLinesLength(ps);
    forall i | 0 <= i < |ps|
      ensures OneLine(DataLines(ps)[i])
    {
      DataLinesAt(ps, i);
      LineIsOneLine("data: ", ps[i]);
    }
  }

  lemma OptionalIsOneLine(tag: string, v: string)
    requires '\n' !in tag && '\n' !in v
    ensures forall i :: 0 <= i < |Optional(tag, v)| ==> OneLine(Optional(tag, v)[i])
  {
    if |v| > 0 {
      LineIsOneLine(tag, v);
    }
  }

  /** Without a line break in the event, retry or comment, every write `MarshalTo` makes is one line of the stream. */
  lemma FieldsAreOneLine(e: Event)
    requires '\n' !in e.event && '\n' !in e.retry && '\n' !in e.comment
    ensures forall i :: 0 <= i < |Fields(e)| ==> OneLine(Fields(e)[i])
  {
    if |e.data| > 0 {
      IdLineIsOneLine(e.id);
      DataLinesAreOneLine(Text.Split(e.data, '\n'));
      OptionalIsOneLine("event: ", e.event);
      OptionalIsOneLine("retry: ", e.retry);
    }
    OptionalIsOneLine("comment: ", e.comment);
    assert OneLine("\n");
  }

  /**
    Without a line break in the event, retry or comment, the bytes `MarshalTo`
    writes split at line breaks into one line per write, in order, and the
    empty rest after the last break: the list of writes that `Read` consumes
    is the stream's lines.
  */
  lemma StreamLines(e: Event)
    requires '\n' !in e.event && '\n' !in e.retry && '\n' !in e.comment
    ensures Text.Split(Text.Concat(Fields(e)), '\n') == LineTexts(Fields(e)) + [""]
  {
    FieldsAreOneLine(e);
    ConcatOneLines(Fields(e));
    Text.SplitTerminated(LineTexts(Fields(e)), '\n');
  }

  /** The event with an event name holding a line break, used below. */
  const BrokenEvent := Event(0, "x", "a\nb", "", "")

  lemma BrokenEventFields()
    ensures Fields(BrokenEvent) == ["id: 0\n", "data: x\n", "event: a\nb\n", "\n"]
  {
    var e := BrokenEvent;
    Text.SplitNoSeparator("x", '\n');
    assert Text.IntDecimal(0) == "0";
    assert ["x"][1..] == [] && ["x"][0] == "x";
    assert Line("data: ", "x") == "data: x\n";
    assert DataLines(["x"]) == [Line("data: ", "x")] + DataLines([]);
    assert IdLine(0) == "id: 0\n";
    assert |e.event| == 3 && |e.retry| == 0;
    assert Line("event: ", e.event) == "event: a\nb\n";
    assert Optional("event: ", e.event) == ["event: a\nb\n"] && Optional("retry: ", e.retry) == [];
    assert DataPart(e) == ["id: 0\n", "data: x\n", "event: a\nb\n"];
  }

  lemma BrokenEventBytes(ws: seq<string>)
    requires ws == ["id: 0\n", "data: x\n", "event: a\nb\n", "\n"]
    ensures Text.Concat(ws) == Text.Terminated(["id: 0", "data: x", "event: a", "b", ""], '\n')
  {
    Text.ConcatAppend(ws[..3], ws[3]);
    Text.ConcatAppend(ws[..2], ws[2]);
    Text.ConcatAppend(ws[..1], ws[1]);
    Text.ConcatAppend([], ws[0]);
    assert ws[..1] == [] + [ws[0]];
    assert ws[..2] == ws[..1] + [ws[1]];
    assert ws[..3] == ws[..2] + [ws[2]];
    assert ws == ws[..3] + [ws[3]];
    var ls := ["id: 0", "data: x", "event: a", "b", ""];
    assert ls[..1][..0] == [] && ls[..2][..1] == ls[..1] && ls[..3][..2] == ls[..2];
    assert ls[..4][..3] == ls[..3] && ls[..4] == ls[..|ls| - 1];
    assert Text.Terminated(ls[..1], '\n') == "id: 0\n";
    assert Text.Terminated(ls[..2], '\n') == "id: 0\ndata: x\n";
    assert Text.Terminated(ls[..3], '\n') == "id: 0\ndata: x\nevent: a\n";
    assert Text.Terminated(ls[..4], '\n') == "id: 0\ndata: x\nevent: a\nb\n";
  }

  /**
    The premise of `StreamLines` is needed: an event name holding a line
    break, which `MarshalTo` writes as it is, puts two lines on the stream for
    one write, so the event `a` is followed by a stray line `b`.
  */
  lemma EventWithLineBreakBreaksStream()
    ensures |Fields(BrokenEvent)| == 4
    ensures Text.Split(Text.Concat(Fields(BrokenEvent)), '\n') == ["id: 0", "data: x", "event: a", "b", "", ""]
  {
    BrokenEventFields();
    BrokenEventBytes(Fields(BrokenEvent));
    Text.SplitTerminated(["id: 0", "data: x", "event: a", "b", ""], '\n');
  }
}
