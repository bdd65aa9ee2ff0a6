/**
  The endpoint check at the start of `Run`, the same in internal/ui/root.go
  and internal/app/root.go: an empty endpoint means the local collector, and
  an endpoint that does not parse as a URL with a scheme and a host is refused
  before anything is dialled. `url.Parse` is not part of this model: it is the
  parameter `parse`, about which nothing is assumed.
*/
module Endpoint {
  import opened Wrappers

  const DefaultEndpoint: string := "ws://127.0.0.1:12001"

  /** The two parts of a parsed URL the check looks at. */
  datatype Url = Url(scheme: string, host: string)

  /** What `Run` does with an endpoint: refuse it, or dial it. */
  datatype Launch = Rejected(endpoint: string) | Dial(endpoint: string)

  /** The endpoint `Run` goes on with. */
  function Effective(endpoint: string): (e: string)
    ensures |e| > 0
    ensures |endpoint| > 0 ==> e == endpoint
    ensures |endpoint| == 0 ==> e == DefaultEndpoint
  {
    if endpoint == "" then DefaultEndpoint else endpoint
  }

  /** Acceptable: a parse without error, a non-empty scheme and a non-empty host. */
  predicate Acceptable(p: Option<Url>)
  {
    p.Some? && p.value.scheme != "" && p.value.host != ""
  }

  /** The check of `Run`. */
  function CheckEndpoint(endpoint: string, parse: string -> Option<Url>): (r: Launch)
    ensures r.endpoint == Effective(endpoint)
    ensures r.Dial? <==> Acceptable(parse(Effective(endpoint)))
  {
    var e := if endpoint == "" then DefaultEndpoint else endpoint;
    match parse(e)
    case None => Rejected(e)
    case Some(u) => if u.scheme == "" || u.host == "" then Rejected(e) else Dial(e)
  }

  /**
    An empty endpoint is checked, and dialled, as the default one; a
    non-empty one is checked as given, and nothing else reaches the dialler.
  */
  lemma DefaultAndScheme(endpoint: string, parse: string -> Option<Url>)
    ensures endpoint == "" ==> CheckEndpoint(endpoint, parse) == CheckEndpoint(DefaultEndpoint, parse)
    ensures CheckEndpoint(endpoint, parse).Dial? ==>
              parse(CheckEndpoint(endpoint, parse).endpoint).Some? &&
              parse(CheckEndpoint(endpoint, parse).endpoint).value.scheme != "" &&
              parse(CheckEndpoint(endpoint, parse).endpoint).value.host != ""
    ensures parse(Effective(endpoint)).None? ==> CheckEndpoint(endpoint, parse) == Rejected(Effective(endpoint))
  {
  }
}
