/** The cross-origin middleware every request passes through before routing. */
module Cors {
  import opened Wrappers

  const AllowedOrigins: seq<string> := [
    "http://localhost:3000",
    "https://vo.flashspace.co",
    "https://virtual.flashspace.co",
    "https://flashspace.co",
    "https://www.flashspace.co",
    "https://flashspace01-flash-space-google-ads.vercel.app"
  ]

  const AllowOriginHeader: string := "Access-Control-Allow-Origin"
  const AllowHeadersHeader: string := "Access-Control-Allow-Headers"
  const AllowMethodsHeader: string := "Access-Control-Allow-Methods"
  const AllowedRequestHeaders: string := "Content-Type"
  const AllowedMethods: string := "GET, POST, OPTIONS"

  /** The parts of an incoming request the middleware reads: the HTTP method and the
      `Origin` header, absent when the client sent none. */
  datatype Request = Request(verb: string, origin: Option<string>)

  /** The headers the middleware sets, and whether it answered the request itself
      (a preflight) instead of passing it on. */
  datatype Decision = Decision(headers: map<string, string>, preflight: bool)

  /** `allowedOrigins.includes(origin)`: a scan of the list for an exactly equal string. */
  method Includes(list: seq<string>, origin: Option<string>) returns (found: bool)
    ensures found <==> origin.Some? && exists i :: 0 <= i < |list| && list[i] == origin.value
  {
    if origin.None? {
      return false;
    }
    var i := 0;
    while i < |list|
      invariant 0 <= i <= |list|
      invariant forall j :: 0 <= j < i ==> list[j] != origin.value
    {
      if list[i] == origin.value {
        return true;
      }
      i := i + 1;
    }
    return false;
  }

  function Apply(req: Request): (d: Decision)
    // the origin is echoed back exactly when it is one of the listed strings
    ensures AllowOriginHeader in d.headers <==> req.origin.Some? && req.origin.value in AllowedOrigins
    ensures AllowOriginHeader in d.headers ==> d.headers[AllowOriginHeader] == req.origin.value
    // the other two headers are always present, with fixed values
    ensures AllowHeadersHeader in d.headers && d.headers[AllowHeadersHeader] == AllowedRequestHeaders
    ensures AllowMethodsHeader in d.headers && d.headers[AllowMethodsHeader] == AllowedMethods
    ensures d.headers.Keys <= {AllowOriginHeader, AllowHeadersHeader, AllowMethodsHeader}
    // only a preflight is answered here
    ensures d.preflight <==> req.verb == "OPTIONS"
  {
    var fixed := map[AllowHeadersHeader := AllowedRequestHeaders, AllowMethodsHeader := AllowedMethods];
    var headers := if req.origin.Some? && req.origin.value in AllowedOrigins
      then fixed[AllowOriginHeader := req.origin.value]
      else fixed;
    Decision(headers, req.verb == "OPTIONS")
  }

  /** Matching is exact: a listed origin with a trailing slash or in another case is refused. */
  lemma ExactMatchOnly()
    ensures AllowOriginHeader !in Apply(Request("POST", Some("https://flashspace.co/"))).headers
    ensures AllowOriginHeader !in Apply(Request("POST", Some("https://FlashSpace.co"))).headers
    ensures AllowOriginHeader in Apply(Request("POST", Some("https://flashspace.co"))).headers
  {
    assert AllowedOrigins[3] == "https://flashspace.co";
  }
}
