/**
  `messageStore` of internal/ui/store.go: three append-only message lists, one
  per kind, with every kind other than metrics and traces (the unknown kind
  included) filed under logs.

  `Lists` is the store's value, used by the pure description of the user
  interface; `MessageStore` is the object the model updates in place.
*/
module UiStore {
  import opened Telemetry
  import opened LineIndex

  datatype Lists = Lists(logs: seq<Message>, metrics: seq<Message>, traces: seq<Message>)

  /** Which of the three lists kind `k` is filed under: 0 logs, 1 metrics, 2 traces. */
  function Bucket(k: Kind): nat
  {
    if k == KindMetrics then 1 else if k == KindTraces then 2 else 0
  }

  /** `Messages(k)`: the list kind `k` reads, the one its bucket names. */
  function Select(s: Lists, k: Kind): (r: seq<Message>)
    ensures r == [s.logs, s.metrics, s.traces][Bucket(k)]
  {
    if k == KindMetrics then s.metrics
    else if k == KindTraces then s.traces
    else s.logs
  }

  /** `Add(m)`: `m` appended to the list of its kind; every list keeps what it held and one message is added in all. */
  function Route(s: Lists, m: Message): (r: Lists)
    ensures s.logs <= r.logs && s.metrics <= r.metrics && s.traces <= r.traces
    ensures |r.logs| + |r.metrics| + |r.traces| == |s.logs| + |s.metrics| + |s.traces| + 1
  {
    if m.kind == KindMetrics then s.(metrics := s.metrics + [m])
    else if m.kind == KindTraces then s.(traces := s.traces + [m])
    else s.(logs := s.logs + [m])
  }

  /** Every kind but metrics and traces reads the logs list; the unknown kind in particular. */
  lemma SelectDefaultsToLogs(s: Lists, k: Kind)
    requires k != KindMetrics && k != KindTraces
    ensures Select(s, k) == s.logs
    ensures Select(s, KindUnknown) == Select(s, KindLogs)
  {
  }

  /**
    `Add(m)` appends `m` at the end of the list that `m.kind` reads, keeps the
    earlier messages where they were, and leaves the other two lists alone.
  */
  lemma RouteAppends(s: Lists, m: Message, k: Kind)
    ensures Select(Route(s, m), m.kind) == Select(s, m.kind) + [m]
    ensures Bucket(k) == Bucket(m.kind) ==> Select(Route(s, m), k) == Select(s, k) + [m]
    ensures Bucket(k) != Bucket(m.kind) ==> Select(Route(s, m), k) == Select(s, k)
  {
  }

  /** After `Add(m)` the line total of `m`'s list grows by `m`'s lines and the others keep theirs. */
  lemma RouteLineCounts(s: Lists, m: Message, k: Kind)
    ensures LineCount(Select(Route(s, m), m.kind)) == LineCount(Select(s, m.kind)) + |m.indentedLines|
    ensures Bucket(k) != Bucket(m.kind) ==> LineCount(Select(Route(s, m), k)) == LineCount(Select(s, k))
  {
    RouteAppends(s, m, k);
    LineCountAppend(Select(s, m.kind), m);
  }

  /** Append-only: every message present before `Add` keeps its position and value. */
  lemma RouteKeepsEarlier(s: Lists, m: Message, k: Kind, i: nat)
    requires i < |Select(s, k)|
    ensures i < |Select(Route(s, m), k)| && Select(Route(s, m), k)[i] == Select(s, k)[i]
  {
  }

  class MessageStore {
    var logs: seq<Message>
    var metrics: seq<Message>
    var traces: seq<Message>

    /** The zero value: three empty lists. */
    constructor ()
      ensures logs == [] && metrics == [] && traces == []
    {
      logs, metrics, traces := [], [], [];
    }

    function Value(): Lists
      reads this
    {
      Lists(logs, metrics, traces)
    }

    /** `Add`, store.go:12-21. */
    method Add(m: Message)
      modifies this
      ensures Value() == Route(old(Value()), m)
    {
      if m.kind == KindMetrics {
        metrics := metrics + [m];
      } else if m.kind == KindTraces {
        traces := traces + [m];
      } else {
        logs := logs + [m];
      }
    }

    /** `Messages`, store.go:23-32: metrics, traces, or the logs for every other kind. */
    function Messages(k: Kind): (r: seq<Message>)
      reads this
      ensures r == [logs, metrics, traces][Bucket(k)]
    {
      Select(Value(), k)
    }

    /** `TotalLines`, store.go:34-41: the lines of the list `k` reads, added up message by message. */
    method TotalLines(k: Kind) returns (lines: nat)
      ensures lines == LineCount(Messages(k))
    {
      var msgs := Messages(k);
      lines := 0;
      for i := 0 to |msgs|
        invariant lines == LineCount(msgs[..i])
      {
        assert msgs[..i + 1] == msgs[..i] + [msgs[i]];
        LineCountAppend(msgs[..i], msgs[i]);
        lines := lines + |msgs[i].indentedLines|;
      }
      assert msgs[..|msgs|] == msgs;
    }
  }
}
