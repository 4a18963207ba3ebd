/**
 The records the monitor keeps: one `Server` per endpoint, its last known
 `Status`, the URL derived from host and port, and the classification of a
 single HTTP probe into a status.
 */
module Servers {
  import opened Options
  import opened Numbers

  /** Last known reachability of an endpoint; `Error` carries the HTTP status code. */
  datatype Status = Unchecked | Online | Offline | Error(code: u16)

  datatype Server = Server(name: string, ip: string, port: u16, status: Status, url: string)

  const Scheme: string := "http://"

  /** The address `format!("http://{}:{}", ip, port)` builds. */
  function Url(ip: string, port: u16): string {
    Scheme + ip + ":" + Decimal(port)
  }

  /** The URL of the server is the one derived from its own host and port. */
  predicate UrlConsistent(s: Server) {
    s.url == Url(s.ip, s.port)
  }

  predicate AllUrlsConsistent(servers: seq<Server>) {
    forall i :: 0 <= i < |servers| ==> UrlConsistent(servers[i])
  }

  /**
   A URL can be taken apart again: the scheme, then the host, then a colon,
   then a port text that parses back to the port.
   */
  lemma UrlDecomposes(ip: string, port: u16)
    ensures var u := Url(ip, port);
      && |u| == |Scheme| + |ip| + 1 + |Decimal(port)|
      && u[..|Scheme|] == Scheme
      && u[|Scheme|..|Scheme| + |ip|] == ip
      && u[|Scheme| + |ip|] == ':'
      && ParseU16(u[|Scheme| + |ip| + 1..]) == Some(port)
  {
    var u := Url(ip, port);
    assert u[|Scheme| + |ip| + 1..] == Decimal(port);
    ParseDecimalRoundTrip(port);
  }

  /** Two servers on one host with different ports never share a URL. */
  lemma UrlInjective(ip: string, p: u16, q: u16)
    requires Url(ip, p) == Url(ip, q)
    ensures p == q
  {
    UrlDecomposes(ip, p);
    UrlDecomposes(ip, q);
  }

  /**
   What a single GET request produced: no response at all, or the final
   response with its status code. The client follows redirects, so a 3xx
   arrives here only when it is not followed; a redirect loop is a
   transport failure.
   */
  datatype Outcome = TransportFailure | Response(code: u16)

  /** The HTTP client's success predicate: a status code in the 2xx class. */
  predicate IsSuccess(code: u16) {
    200 <= code <= 299
  }

  /**
   Maps a probe outcome to a status: no response is `Offline`, a success
   response is `Online`, and any other response is `Error` with its code.
   */
  function Classify(outcome: Outcome): (r: Status)
    ensures r != Unchecked
    ensures r == Offline <==> outcome.TransportFailure?
    ensures r == Online <==> outcome.Response? && IsSuccess(outcome.code)
    ensures r.Error? <==> outcome.Response? && !IsSuccess(outcome.code)
    ensures r.Error? ==> r.code == outcome.code
  {
    match outcome
    case TransportFailure => Offline
    case Response(code) => if IsSuccess(code) then Online else Error(code)
  }

  /**
   Every status other than `Online` identifies its outcome: transport
   failures and error responses can be recovered from the status alone.
   */
  lemma ClassifyRecoversFailures(a: Outcome, b: Outcome)
    requires Classify(a) == Classify(b) && Classify(a) != Online
    ensures a == b
  {
  }

  /** The classifications of 200, 204, 301, 404 and 500 responses and of a refused connection. */
  lemma ClassifyExamples()
    ensures Classify(Response(200)) == Online
    ensures Classify(Response(204)) == Online
    ensures Classify(Response(301)) == Error(301)
    ensures Classify(Response(404)) == Error(404)
    ensures Classify(Response(500)) == Error(500)
    ensures Classify(TransportFailure) == Offline
  {
  }
}
