/** What the upstream call yields, and the response the proxy gives for it. */
module Replies {
  import opened Wrappers
  import opened JsonValues
  import opened ResponseHeaders

  /** The result of the HTTP client call. */
  datatype Outcome =
      /** The client resolved with a response. */
    | Success(status: int, headers: seq<(string, string)>, data: Json)
      /** The client threw an error that carries the upstream's response. */
    | UpstreamError(status: int, body: Option<Json>)
      /** The client threw an error with no response: the call never completed. */
    | TransportError(message: string)

  /** Status, body and the headers this handler set. */
  datatype Response = Response(status: int, body: Json, headers: map<string, string>)

  /** "target server error" */
  const UpstreamErrorText := "目标服务器错误"
  /** "internal server error" */
  const InternalErrorText := "内部服务器错误"

  /** The response to an upstream call made on a cache miss. */
  function Reply(outcome: Outcome): (r: Response)
    ensures outcome.Success? ==> r.status == outcome.status && r.body == outcome.data
    ensures outcome.UpstreamError? ==> r.status == outcome.status
    ensures outcome.TransportError? ==> r.status == 500
    ensures !outcome.Success? ==> r.headers == map[]
  {
    match outcome
    case Success(status, headers, data) => Response(status, data, Applied(headers))
    case UpstreamError(status, body) => Response(status, Or(body, ErrorBody(UpstreamErrorText)), map[])
    case TransportError(message) =>
      Response(500, JObject([("error", JString(InternalErrorText)), ("message", JString(message))]), map[])
  }

  /**
   * A successful call is mirrored: the upstream's status and data, and
   * exactly its non-framing headers.
   */
  lemma {:induction false} SuccessIsMirrored(status: int, headers: seq<(string, string)>, data: Json)
    ensures var r := Reply(Success(status, headers, data));
            && r.status == status && r.body == data
            && (forall k :: k in r.headers ==> k !in Excluded)
            && (forall k :: k in r.headers <==>
                  exists i :: 0 <= i < |headers| && Kept(headers[i].0) && Lower(headers[i].0) == k)
  {
    AppliedOmitsExcluded(headers);
    forall k ensures k in Applied(headers) <==>
                       exists i :: 0 <= i < |headers| && Kept(headers[i].0) && Lower(headers[i].0) == k
    {
      AppliedKeys(headers, k);
    }
  }

  /**
   * The two kinds of failure are told apart: an upstream answer keeps its
   * status and its data (a default body when the data is falsy); a call that
   * never completed becomes 500 with the error's message. No headers are set.
   */
  lemma {:induction false} FailuresClassified(outcome: Outcome)
    requires !outcome.Success?
    ensures var r := Reply(outcome);
            && r.headers == map[]
            && (outcome.UpstreamError? ==>
                  r.status == outcome.status &&
                  r.body == (if Truthy(outcome.body) then outcome.body.value else ErrorBody(UpstreamErrorText)))
            && (outcome.TransportError? ==>
                  r.status == 500 &&
                  r.body == JObject([("error", JString(InternalErrorText)), ("message", JString(outcome.message))]))
  {
  }
}
