/**
  The classifier of internal/telemetry/parser.go: the message kinds, their
  names, and `Parse`, which tries the logs, metrics and traces decoders in that
  order and keeps the first that decodes with at least one resource.

  The OpenTelemetry JSON decoders and marshalers and `encoding/json` are not
  part of this model: they are the fields of a `Codec`, functions about which
  nothing is assumed.
*/
module Telemetry {
  import opened Wrappers
  import Text

  /** Go's `type Kind int`: any integer is a Kind, four of them are named. */
  newtype Kind = int

  const KindLogs: Kind := 0
  const KindMetrics: Kind := 1
  const KindTraces: Kind := 2
  const KindUnknown: Kind := 3

  /** `Kind.String`: the three data kinds by name, every other value "unknown". */
  function KindName(k: Kind): (name: string)
    ensures name == "logs" <==> k == KindLogs
    ensures name == "metrics" <==> k == KindMetrics
    ensures name == "traces" <==> k == KindTraces
    ensures name == "unknown" <==> k != KindLogs && k != KindMetrics && k != KindTraces
  {
    if k == KindMetrics then "metrics"
    else if k == KindTraces then "traces"
    else if k == KindLogs then "logs"
    else "unknown"
  }

  /** A classified frame: its kind and its display lines. */
  datatype Message = Message(kind: Kind, indentedLines: seq<string>)

  /**
    What one of the pdata JSON unmarshalers made of a frame: an error, or a
    payload with `resources` top-level resource entries (`ResourceLogs().Len()`
    and so on), together with what the matching JSON marshaler returns for it
    (`None` when re-marshalling fails).
  */
  datatype Decoded = DecodeError | Decoded(resources: nat, remarshalled: Option<string>)

  /**
    The external decoders. `indent(b)` is `json.Unmarshal(b, &v)` followed by
    `json.MarshalIndent(v, "", "  ")`: the indented text, or `None` when either
    step fails.
  */
  datatype Codec = Codec(
    decodeLogs: string -> Decoded,
    decodeMetrics: string -> Decoded,
    decodeTraces: string -> Decoded,
    indent: string -> Option<string>)

  /** A decode counts only when it succeeded and found at least one resource. */
  predicate Accepted(d: Decoded)
  {
    d.Decoded? && d.resources > 0
  }

  /** The `pretty` closure: indented JSON split into lines, or the bytes as one line. */
  function Pretty(b: string, codec: Codec): (lines: seq<string>)
    ensures |lines| >= 1
  {
    match codec.indent(b)
    case Some(pb) => Text.Split(pb, '\n')
    case None => [b]
  }

  /** The `asMsg` closure: pretty-print the re-marshalled payload, or the raw frame when that failed. */
  function AsMessage(kind: Kind, raw: string, d: Decoded, codec: Codec): Message
    requires d.Decoded?
  {
    match d.remarshalled
    case Some(out) => Message(kind, Pretty(out, codec))
    case None => Message(kind, Pretty(raw, codec))
  }

  /** `Parse`: never fails; the first accepted decoder in the order logs, metrics, traces decides the kind. */
  function Parse(data: string, codec: Codec): (m: Message)
    ensures |m.indentedLines| >= 1
    ensures m.kind == KindLogs <==> Accepted(codec.decodeLogs(data))
    ensures m.kind == KindMetrics <==>
      !Accepted(codec.decodeLogs(data)) && Accepted(codec.decodeMetrics(data))
    ensures m.kind == KindTraces <==>
      !Accepted(codec.decodeLogs(data)) && !Accepted(codec.decodeMetrics(data)) &&
      Accepted(codec.decodeTraces(data))
    ensures m.kind == KindUnknown <==>
      !Accepted(codec.decodeLogs(data)) && !Accepted(codec.decodeMetrics(data)) &&
      !Accepted(codec.decodeTraces(data))
  {
    var logs := codec.decodeLogs(data);
    if Accepted(logs) then AsMessage(KindLogs, data, logs, codec)
    else
      var metrics := codec.decodeMetrics(data);
      if Accepted(metrics) then AsMessage(KindMetrics, data, metrics, codec)
      else
        var traces := codec.decodeTraces(data);
        if Accepted(traces) then AsMessage(KindTraces, data, traces, codec)
        else Message(KindUnknown, Pretty(data, codec))
  }

  /** Once the logs decoder accepts a frame, the other decoders have no say. */
  lemma LogsWinWhateverOthersSay(data: string, codec: Codec, other: Codec)
    requires Accepted(codec.decodeLogs(data))
    requires other.decodeLogs == codec.decodeLogs && other.indent == codec.indent
    ensures Parse(data, other) == Parse(data, codec)
    ensures Parse(data, codec).kind == KindLogs
  {
  }

  /** The lines of an accepted frame whose re-marshalling failed come from the raw frame. */
  lemma RemarshalFailureUsesRawFrame(data: string, codec: Codec)
    requires Accepted(codec.decodeLogs(data)) ||
             Accepted(codec.decodeMetrics(data)) ||
             Accepted(codec.decodeTraces(data))
    requires var m := Parse(data, codec);
             var d := if m.kind == KindLogs then codec.decodeLogs(data)
                      else if m.kind == KindMetrics then codec.decodeMetrics(data)
                      else codec.decodeTraces(data);
             d.Decoded? && d.remarshalled.None?
    ensures Parse(data, codec).indentedLines == Pretty(data, codec)
  {
  }

  /** A frame that is not JSON and that no decoder accepts is shown as itself, on one line. */
  lemma NonJsonIsOneRawLine(data: string, codec: Codec)
    requires !Accepted(codec.decodeLogs(data))
    requires !Accepted(codec.decodeMetrics(data))
    requires !Accepted(codec.decodeTraces(data))
    requires codec.indent(data).None?
    ensures Parse(data, codec) == Message(KindUnknown, [data])
  {
  }

  /** Joining a message's lines gives back the indented JSON text it was split from. */
  lemma PrettyJoinsBack(b: string, codec: Codec)
    requires codec.indent(b).Some?
    ensures Text.Join(Pretty(b, codec), '\n') == codec.indent(b).value
    ensures forall i :: 0 <= i < |Pretty(b, codec)| ==> '\n' !in Pretty(b, codec)[i]
  {
    Text.JoinSplit(codec.indent(b).value, '\n');
  }
}
