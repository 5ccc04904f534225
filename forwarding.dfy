/** The outbound request the proxy sends upstream. */
module Forwarding {
  import opened Wrappers
  import opened JsonValues

  /** The request configuration handed to the HTTP client. */
  datatype Outbound = Outbound(
    verb: string,
    url: string,
    params: seq<(string, Json)>,
    headers: map<string, string>,
    data: Option<Json>)

  /** Inbound headers that are not forwarded. */
  const Dropped: set<string> := {"host", "x-forwarded-for", "x-forwarded-proto"}
  const ContentType := "content-type"
  const FormUrlEncoded := "application/x-www-form-urlencoded"
  /** The methods whose body is forwarded. */
  const BodyMethods: seq<string> := ["POST", "PUT", "PATCH"]

  /**
   * The inbound headers (names lower-cased, as Node delivers them) without the
   * dropped ones, with the content type forced to form-url-encoding.
   */
  function OutboundHeaders(inbound: map<string, string>): (h: map<string, string>)
    ensures forall name :: name in h <==> name == ContentType || (name in inbound && name !in Dropped)
    ensures h[ContentType] == FormUrlEncoded
    ensures forall name :: name in inbound && name !in Dropped && name != ContentType ==> h[name] == inbound[name]
  {
    (inbound - Dropped)[ContentType := FormUrlEncoded]
  }

  /** The body is attached when it is truthy and the method is POST, PUT or PATCH. */
  function OutboundBody(verb: string, body: Option<Json>): (data: Option<Json>)
    ensures data.Some? <==> Truthy(body) && verb in BodyMethods
    ensures data.Some? ==> data == body
  {
    if Truthy(body) && verb in BodyMethods then body else None
  }

  /** Method and query are passed on verbatim; headers and body as above. */
  function BuildOutbound(verb: string, url: string, query: seq<(string, Json)>,
                         headers: map<string, string>, body: Option<Json>): (o: Outbound)
    ensures o.verb == verb && o.url == url && o.params == query
    ensures forall name :: name in o.headers <==> name == ContentType || (name in headers && name !in Dropped)
    ensures o.data.Some? <==> Truthy(body) && verb in BodyMethods
  {
    Outbound(verb, url, query, OutboundHeaders(headers), OutboundBody(verb, body))
  }

  /** Whatever the method, the outbound request never carries the dropped headers and always the form content type. */
  lemma {:induction false} OutboundNeverLeaksTopology(verb: string, url: string, query: seq<(string, Json)>,
                                                      headers: map<string, string>, body: Option<Json>)
    ensures var o := BuildOutbound(verb, url, query, headers, body);
            && o.verb == verb && o.url == url && o.params == query
            && (forall name :: name in Dropped ==> name !in o.headers)
            && ContentType in o.headers && o.headers[ContentType] == FormUrlEncoded
            && (verb == "GET" || verb == "DELETE" ==> o.data == None)
  {
  }
}
