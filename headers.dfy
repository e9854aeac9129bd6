/** The response-header rewrite applied after every request (`after_request`). */
module Headers {
  import opened Wrappers

  const CacheControl: string := "Cache-Control"
  /** One day of caching for static assets (`max-age`, section 5.2.2.1 of RFC 9111). */
  const StaticCache: string := "public, max-age=86400"
  /** Revalidate everything else (`no-cache`, section 5.2.2.4 of RFC 9111). */
  const NoCache: string := "no-cache"

  /** The headers after the rewrite for a request routed to `endpoint` (`None`
      when no endpoint matched): Cache-Control is set by endpoint, Server and
      Date are gone, and every other header is kept as it was. */
  function Rewritten(endpoint: Option<string>, headers: map<string, string>): (r: map<string, string>)
    ensures CacheControl in r && r[CacheControl] == (if endpoint == Some("static") then StaticCache else NoCache)
    ensures "Server" !in r && "Date" !in r
    ensures forall k :: k in headers && k != CacheControl && k != "Server" && k != "Date" ==> k in r && r[k] == headers[k]
    ensures forall k :: k in r ==> k in headers || k == CacheControl
  {
    var directive := if endpoint == Some("static") then StaticCache else NoCache;
    headers[CacheControl := directive] - {"Server", "Date"}
  }

  /** Rewriting twice gives the same headers as rewriting once. */
  lemma RewriteIdempotent(endpoint: Option<string>, headers: map<string, string>)
    ensures Rewritten(endpoint, Rewritten(endpoint, headers)) == Rewritten(endpoint, headers)
  {
  }

  /** A response whose headers are changed in place. */
  class Response {
    var headers: map<string, string>

    constructor (headers: map<string, string>)
      ensures this.headers == headers
    {
      this.headers := headers;
    }

    method AfterRequest(endpoint: Option<string>)
      modifies this
      ensures headers == Rewritten(endpoint, old(headers))
    {
      if endpoint == Some("static") {
        headers := headers[CacheControl := StaticCache];
      } else {
        headers := headers[CacheControl := NoCache];
      }
      headers := headers - {"Server"};
      headers := headers - {"Date"};
    }
  }
}
