/**
 * The forwarding handler: path to URL, cache key, cache lookup, and on a miss
 * the upstream call, the mirrored response and the cache write for status 200.
 */
module Proxy {
  import opened Wrappers
  import opened JsonValues
  import opened Routing
  import opened CacheKeys
  import opened Forwarding
  import opened ResponseHeaders
  import opened Replies
  import opened TtlCache

  const DefaultBaseUrl := "http://web.juhe.cn/finance"
  const DefaultTtlSeconds := 3600

  /** The settings fixed at startup, and the serialiser used for keys. */
  datatype Config = Config(baseUrl: string, ttlSeconds: int, ser: Serializer)

  /** The parts of the inbound request the handler reads. */
  datatype Request = Request(
    verb: string,
    path: string,
    query: seq<(string, Json)>,
    headers: map<string, string>,
    body: Option<Json>)

  /** The response, the request sent upstream (None when none was sent) and the cache afterwards. */
  datatype Step = Step(response: Response, sent: Option<Outbound>, cache: CacheMap)

  function RequestUrl(cfg: Config, req: Request): string {
    TargetUrl(cfg.baseUrl, req.path)
  }

  function RequestKey(cfg: Config, req: Request): string {
    Key(cfg.ser, req.verb, RequestUrl(cfg, req), req.query, req.body)
  }

  function OutboundFor(cfg: Config, req: Request): Outbound {
    BuildOutbound(req.verb, RequestUrl(cfg, req), req.query, req.headers, req.body)
  }

  /** Only a successful call with status 200 is stored, timed from `now`, the time read before the call. */
  function CacheAfter(cfg: Config, cache: CacheMap, key: string, now: int, outcome: Outcome): (c: CacheMap)
    ensures forall k :: k != key ==> (k in c <==> k in cache) && (k in cache ==> c[k] == cache[k])
    ensures outcome.Success? && outcome.status == 200 ==>
              key in c && c[key] == Entry(outcome.data, now + cfg.ttlSeconds * 1000)
    ensures !(outcome.Success? && outcome.status == 200) ==> c == cache
  {
    if outcome.Success? && outcome.status == 200 then Put(cache, key, outcome.data, now, cfg.ttlSeconds)
    else cache
  }

  /** One request, given the time it arrives and what the upstream would answer. */
  function Handle(cfg: Config, cache: CacheMap, req: Request, now: int, outcome: Outcome): (s: Step)
    ensures s.sent == None <==> Lookup(cache, RequestKey(cfg, req), now).Some?
    ensures s.sent == None ==> s.response.status == 200 && s.cache == cache
    ensures s.sent != None ==> s.sent == Some(OutboundFor(cfg, req)) && s.response == Reply(outcome)
  {
    var key := RequestKey(cfg, req);
    match Lookup(cache, key, now)
    case Some(data) => Step(Response(200, data, map[]), None, cache)
    case None => Step(Reply(outcome), Some(OutboundFor(cfg, req)), CacheAfter(cfg, cache, key, now, outcome))
  }

  /** The proxy process: its configuration and the process-wide cache. */
  class Forwarder {
    const config: Config
    var cache: CacheMap

    constructor (config: Config)
      ensures this.config == config && cache == map[]
    {
      this.config := config;
      cache := map[];
    }

    /** The request handler, on a clock reading `now` and the upstream's `outcome`. */
    method Forward(req: Request, now: int, outcome: Outcome) returns (response: Response, sent: Option<Outbound>)
      modifies this
      ensures Step(response, sent, cache) == Handle(config, old(cache), req, now, outcome)
    {
      var url := TargetUrl(config.baseUrl, req.path);
      var key := Key(config.ser, req.verb, url, req.query, req.body);
      if key in cache && cache[key].expire > now {
        response := Response(200, cache[key].data, map[]);
        sent := None;
        return;
      }
      sent := Some(BuildOutbound(req.verb, url, req.query, req.headers, req.body));
      match outcome {
        case Success(status, headers, data) =>
          var written := CopyHeaders(headers);
          response := Response(status, data, written);
          if status == 200 {
            cache := cache[key := Entry(data, now + config.ttlSeconds * 1000)];
          }
        case UpstreamError(status, body) =>
          response := Response(status, Or(body, ErrorBody(UpstreamErrorText)), map[]);
        case TransportError(message) =>
          response := Response(500, JObject([("error", JString(InternalErrorText)), ("message", JString(message))]), map[]);
      }
    }
  }

  /** A live entry answers 200 with its data; nothing is sent upstream and the cache is unchanged, whatever the upstream would say. */
  lemma {:induction false} CacheHit(cfg: Config, cache: CacheMap, req: Request, now: int, outcome: Outcome)
    requires RequestKey(cfg, req) in cache && cache[RequestKey(cfg, req)].expire > now
    ensures Handle(cfg, cache, req, now, outcome) ==
              Step(Response(200, cache[RequestKey(cfg, req)].data, map[]), None, cache)
  {
  }

  /**
   * On a miss the request goes upstream and its answer is returned. The cache
   * changes only under the request's key, only for a 200 success, and then
   * holds the data with expiry `now + TTL*1000`, replacing any entry there.
   */
  lemma {:induction false} CacheMiss(cfg: Config, cache: CacheMap, req: Request, now: int, outcome: Outcome)
    requires Lookup(cache, RequestKey(cfg, req), now) == None
    ensures var s := Handle(cfg, cache, req, now, outcome);
            var key := RequestKey(cfg, req);
            && s.sent == Some(OutboundFor(cfg, req))
            && s.response == Reply(outcome)
            && (outcome.Success? ==> s.response.status == outcome.status && s.response.body == outcome.data)
            && (forall k :: k != key ==> (k in s.cache <==> k in cache) && (k in cache ==> s.cache[k] == cache[k]))
            && (outcome.Success? && outcome.status == 200 ==>
                  key in s.cache && s.cache[key] == Entry(outcome.data, now + cfg.ttlSeconds * 1000))
            && (!(outcome.Success? && outcome.status == 200) ==> s.cache == cache)
  {
  }

  /** An expired entry is a miss, and the lookup does not remove it: only a 200 answer replaces it. */
  lemma {:induction false} ExpiredEntryStays(cfg: Config, cache: CacheMap, req: Request, now: int, outcome: Outcome)
    requires RequestKey(cfg, req) in cache && cache[RequestKey(cfg, req)].expire <= now
    requires !(outcome.Success? && outcome.status == 200)
    ensures var s := Handle(cfg, cache, req, now, outcome);
            && s.sent.Some?
            && s.cache == cache
            && RequestKey(cfg, req) in s.cache
  {
  }

  /**
   * The same request repeated within the TTL of a 200 answer gets the same
   * status and body without going upstream, whatever the upstream would answer now.
   */
  lemma {:induction false} RepeatWithinTtl(cfg: Config, cache: CacheMap, req: Request,
                                           t1: int, o1: Outcome, t2: int, o2: Outcome)
    requires Lookup(cache, RequestKey(cfg, req), t1) == None
    requires o1.Success? && o1.status == 200
    requires t1 <= t2 < t1 + cfg.ttlSeconds * 1000
    ensures var first := Handle(cfg, cache, req, t1, o1);
            var second := Handle(cfg, first.cache, req, t2, o2);
            && first.response.status == 200 && first.response.body == o1.data
            && second.sent == None
            && second.response.status == first.response.status
            && second.response.body == first.response.body
            && second.cache == first.cache
  {
    CacheMiss(cfg, cache, req, t1, o1);
    PutThenLookup(cache, RequestKey(cfg, req), o1.data, t1, cfg.ttlSeconds, t2);
  }

  /** Once the TTL has elapsed the same request goes upstream again and returns the new answer. */
  lemma {:induction false} RepeatAfterTtl(cfg: Config, cache: CacheMap, req: Request,
                                          t1: int, o1: Outcome, t2: int, o2: Outcome)
    requires Lookup(cache, RequestKey(cfg, req), t1) == None
    requires o1.Success? && o1.status == 200
    requires t2 >= t1 + cfg.ttlSeconds * 1000
    ensures var first := Handle(cfg, cache, req, t1, o1);
            var second := Handle(cfg, first.cache, req, t2, o2);
            && second.sent == Some(OutboundFor(cfg, req))
            && second.response == Reply(o2)
  {
    CacheMiss(cfg, cache, req, t1, o1);
    PutThenLookup(cache, RequestKey(cfg, req), o1.data, t1, cfg.ttlSeconds, t2);
  }

  /** Neither kind of failure touches the cache, on a hit or a miss. */
  lemma {:induction false} FailuresNotCached(cfg: Config, cache: CacheMap, req: Request, now: int, outcome: Outcome)
    requires !outcome.Success?
    ensures Handle(cfg, cache, req, now, outcome).cache == cache
  {
  }

  /** Requests from a client: rooted paths and methods without ':', neither holding '?'. */
  predicate WellFormed(cfg: Config, req: Request) {
    Rooted(req.path) && '?' !in req.path && ':' !in req.verb && '?' !in cfg.baseUrl
  }

  /**
   * Two requests share a cache entry exactly when they agree on method, path,
   * serialised query and, for methods other than GET, serialised body.
   */
  lemma {:induction false} SameKeyIffSameRequest(cfg: Config, r1: Request, r2: Request)
    requires WellFormed(cfg, r1) && WellFormed(cfg, r2)
    requires r1.verb != "GET" && r2.verb != "GET" ==> ObjectsPrefixFree(cfg.ser)
    ensures RequestKey(cfg, r1) == RequestKey(cfg, r2) <==>
              && r1.verb == r2.verb
              && r1.path == r2.path
              && cfg.ser(JObject(r1.query)) == cfg.ser(JObject(r2.query))
              && (r1.verb != "GET" ==> cfg.ser(KeyBody(r1.body)) == cfg.ser(KeyBody(r2.body)))
  {
    TargetUrlHasNoQueryMark(cfg.baseUrl, r1.path);
    TargetUrlHasNoQueryMark(cfg.baseUrl, r2.path);
    TargetUrlInjective(cfg.baseUrl, r1.path, r2.path);
    KeysDistinguish(cfg.ser, r1.verb, RequestUrl(cfg, r1), r1.query, r1.body,
                             r2.verb, RequestUrl(cfg, r2), r2.query, r2.body);
  }

  /** A 200 answer cached for one request is not served to a request with a different key. */
  lemma {:induction false} NoSharingAcrossKeys(cfg: Config, cache: CacheMap, r1: Request, r2: Request,
                                               t1: int, o1: Outcome, t2: int, o2: Outcome)
    requires RequestKey(cfg, r1) != RequestKey(cfg, r2)
    ensures var after := Handle(cfg, Handle(cfg, cache, r1, t1, o1).cache, r2, t2, o2);
            var alone := Handle(cfg, cache, r2, t2, o2);
            after.response == alone.response && after.sent == alone.sent
  {
    var first := Handle(cfg, cache, r1, t1, o1);
    if Lookup(cache, RequestKey(cfg, r1), t1) == None && o1.Success? && o1.status == 200 {
      PutKeepsOtherKeys(cache, RequestKey(cfg, r1), RequestKey(cfg, r2), o1.data, t1, cfg.ttlSeconds, t2);
    }
    assert Lookup(first.cache, RequestKey(cfg, r2), t2) == Lookup(cache, RequestKey(cfg, r2), t2);
  }

  /** A GET is forwarded and its 200 answer cached; repeated within the TTL it is served from the cache. */
  method ExampleCachedGet(ser: Serializer)
  {
    var proxy := new Forwarder(Config(DefaultBaseUrl, DefaultTtlSeconds, ser));
    var hs := Request("GET", "/hs", [("key", JString("abc"))], map[], None);
    var one := JObject([("value", JNumber(1))]);

    var r, sent := proxy.Forward(hs, 1000, Success(200, [], one));
    assert r.status == 200 && r.body == one;
    assert sent.Some? && sent.value.url == "http://web.juhe.cn/finance/hs";

    r, sent := proxy.Forward(hs, 2000, TransportError("connect ECONNREFUSED"));
    assert r == Response(200, one, map[]) && sent == None;
  }

  /** Past the TTL the same GET goes upstream again and the new answer is returned. */
  method ExampleRefreshAfterTtl(ser: Serializer)
  {
    var proxy := new Forwarder(Config(DefaultBaseUrl, DefaultTtlSeconds, ser));
    var hs := Request("GET", "/hs", [("key", JString("abc"))], map[], None);
    var one := JObject([("value", JNumber(1))]);
    var two := JObject([("value", JNumber(2))]);

    var r, sent := proxy.Forward(hs, 1000, Success(200, [], one));
    r, sent := proxy.Forward(hs, 1000 + DefaultTtlSeconds * 1000, Success(200, [], two));
    assert r.status == 200 && r.body == two && sent.Some?;
  }

  /** A 404 from the upstream is passed through and nothing is cached; an unreachable upstream gives 500. */
  method ExampleFailures(ser: Serializer)
  {
    var proxy := new Forwarder(Config(DefaultBaseUrl, DefaultTtlSeconds, ser));
    var bad := Request("GET", "/bad", [], map[], None);
    var notFound := JObject([("error", JString("not found"))]);

    var r, sent := proxy.Forward(bad, 1000, UpstreamError(404, Some(notFound)));
    assert r.status == 404 && r.body == notFound && proxy.cache == map[];

    r, sent := proxy.Forward(bad, 2000, TransportError("connect ECONNREFUSED"));
    assert r.status == 500 && sent.Some? && proxy.cache == map[];
  }
}
