# Forwarding proxy with a response cache — Dafny model

The system is an HTTP proxy in front of a financial data API. Every inbound request is re-issued
against a fixed upstream base address (`http://web.juhe.cn/finance` by default) and the upstream
answer is mirrored back. Identical requests are answered from an in-memory cache for a TTL
(3600 seconds by default). The model covers the request handler `forwardRequest` in `index.js`
and the process-wide cache it reads and writes:

- `Routing`: the path with one leading `/` stripped, appended to the base address.
- `CacheKeys`: the cache key `METHOD:url?query` and, for every method but GET, `:body`.
  `JSON.stringify` is an abstract `Serializer` parameter. It is not assumed to be canonical.
- `Forwarding`: the outbound request. The `host`, `x-forwarded-for` and `x-forwarded-proto`
  headers are dropped, the content type is forced to form-url-encoding, and the body is
  attached only for POST, PUT and PATCH.
- `ResponseHeaders`: the `forEach` loop that copies upstream headers, except the framing
  headers `content-encoding`, `transfer-encoding` and `connection`. It is a method with a loop,
  proved against the function `Applied`.
- `Replies`: the response for each upstream outcome, and the error classification.
- `TtlCache`: entries `{data, expire}`. An entry is a hit when `expire > now`. Expiry is checked
  lazily and nothing is ever evicted.
- `Proxy`: the class `Forwarder` holds the configuration and the cache map. Its method `Forward`
  updates the map in place. `Forward` is proved equal to the pure function `Handle`, and the
  lemmas state hit, miss, expiry, "only 200 is stored", "nothing else changes", repeat-request
  behaviour and key distinctness about `Handle`.

Parameters that replace the environment: the clock reading `now` (milliseconds, sampled before
the upstream call), what the upstream answers (`Outcome`: `Success`, `UpstreamError` or
`TransportError`), and the configuration (base address, TTL in seconds, serialiser). The
out-parameter `sent` of `Forward` is the request handed to the HTTP client. It is `None`
exactly when the answer came from the cache.

Choices the code makes where a stricter proxy might differ, which the model follows:

- A canonical cache key would sort query and body members before serialising them. The code
  uses `JSON.stringify`, which lists array-index names (`"0"`, `"1"`, ...) in numeric order and
  every other name in insertion order. `CacheKeys.InsertionOrderChangesKey` shows that two
  orderings of the same query parameters, with names that are not array indices, get
  different keys.
- An upstream error body is replaced by a default not only when it is missing: the code uses
  `||`, so any falsy upstream data (`null`, `""`, `0`, `false`) is replaced as well.
- The error texts are `目标服务器错误` ("target server error") and `内部服务器错误`
  ("internal server error").
- Expired entries are never removed: an expired entry stays until a 200 answer overwrites it.
- A cache hit sets no response headers, so a repeated request gets the same status and body
  as the first, but not its headers.

## Model

| member | source | states |
|---|---|---|
| `Routing.StripLeadingSlash` | index.js:36 | a rooted path is `"/"` followed by the result; any other path is returned unchanged |
| `Routing.TargetUrl` | index.js:38 | the target URL is `base + path` for a rooted path, and `base + "/" + path` otherwise |
| `Routing.SlashIsOptional` | index.js:36-38 | `TargetUrl(base, "/" + p)` is `base + "/" + p`, and it equals `TargetUrl(base, p)` exactly when `p` is not itself rooted |
| `Routing.TargetUrlInjective` | index.js:36-38 | two rooted paths give the same target URL if and only if they are equal |
| `Routing.TargetUrlHasNoQueryMark` | index.js:38 | no `?` in the base address or the path means no `?` in the target URL |
| `CacheKeys.Key` | index.js:40-47 | every key begins with `method:url?` and the serialised query, and it ends there exactly when the method is GET: only non-GET keys carry the body |
| `CacheKeys.KeyShape` | index.js:40-47 | every key, GET keys included, has the form `method:url?tail` |
| `CacheKeys.KeysDistinguish` | index.js:40-47 | two keys are equal if and only if method, target URL, serialised query and (for a non-GET) serialised body (the body, or `{}` when it is falsy) are equal; this needs only that methods hold no `:`, URLs no `?`, and (when both are non-GET) that serialised objects are prefix-free |
| `CacheKeys.InsertionOrderChangesKey` | index.js:43 | with an injective serialiser, the same two query parameters in swapped order give different GET keys, so the key is not canonical |
| `Forwarding.OutboundHeaders` | index.js:63-69 | the outbound header names are the inbound ones minus `host`/`x-forwarded-for`/`x-forwarded-proto`, plus `content-type` set to form-url-encoding; every other header keeps its value |
| `Forwarding.OutboundBody` | index.js:71-73 | a body is attached if and only if it is truthy and the method is POST, PUT or PATCH, and then it is the inbound body |
| `Forwarding.BuildOutbound` | index.js:59-73 | method, URL and query are passed on verbatim; the header names are the inbound ones minus the dropped three, plus `content-type`; a body is attached if and only if it is truthy and the method is POST, PUT or PATCH |
| `Forwarding.OutboundNeverLeaksTopology` | index.js:59-73 | for every method the outbound request keeps method, URL and query, carries none of the dropped headers and always the form content type; GET and DELETE never carry a body |
| `ResponseHeaders.Applied` | index.js:84-89 | no excluded name is ever set, and the last upstream header, when kept, is set under its lower-cased name with its own value |
| `ResponseHeaders.CopyHeaders` | index.js:84-89 | the loop over the upstream headers writes exactly the map `Applied(upstream)` |
| `ResponseHeaders.AppliedKeys` | index.js:84-89 | a header name is set if and only if some upstream header with that lower-cased name is not excluded |
| `ResponseHeaders.AppliedValue` | index.js:85-88 | a kept upstream header that no later header overrides is set with its own value |
| `ResponseHeaders.AppliedOmitsExcluded` | index.js:84-86 | no header set on the response is `content-encoding`, `transfer-encoding` or `connection`, in any case spelling |
| `Replies.Reply` | index.js:82-115 | a success keeps the upstream status and data; an upstream error keeps its status; a transport failure gives 500; neither failure sets headers |
| `Replies.SuccessIsMirrored` | index.js:82-93 | a successful upstream call yields its status and data, and exactly its non-framing headers |
| `Replies.FailuresClassified` | index.js:102-115 | an upstream error yields its status and its data, or `{error: '目标服务器错误'}` when the data is falsy; a transport failure yields 500 with `{error: '内部服务器错误', message}`; neither sets headers |
| `TtlCache.Lookup` | index.js:50-51 | a lookup hits if and only if the key has an entry whose expiry is strictly after `now`, and then it yields that entry's data |
| `TtlCache.Put` | index.js:96-99 | storing adds the key with the data and expiry `now + TTL*1000`, replacing any entry, and every other key keeps its entry |
| `TtlCache.PutThenLookup` | index.js:49-51 | an entry stored at `now` is a hit at time `t` (with the stored data) if and only if `t < now + TTL*1000` |
| `TtlCache.PutKeepsOtherKeys` | index.js:96 | storing under one key does not change the lookup of another key |
| `TtlCache.LookupMonotone` | index.js:51 | an entry that is live at some time was live, with the same data, at every earlier time |
| `Proxy.CacheAfter` | index.js:95-99 | after the call only the request's key can change; a 200 success stores its data with expiry `now + TTL*1000`; any other outcome leaves the cache as it was |
| `Proxy.Handle` | index.js:32-117 | nothing is sent upstream exactly when the lookup hits, and then the answer is 200 with the cache unchanged; otherwise the outbound request is sent and the reply for the upstream outcome is returned |
| `Proxy.Forwarder.constructor` | index.js:26 | the proxy starts with an empty cache |
| `Proxy.Forwarder.Forward` | index.js:32-117 | the response, the request sent upstream and the new cache are those of `Handle` on the old cache |
| `Proxy.CacheHit` | index.js:49-56 | a live entry gives 200 with the cached data, nothing is sent upstream, the cache is unchanged, whatever the upstream would answer |
| `Proxy.CacheMiss` | index.js:57-101 | on a miss the outbound request is sent and the upstream answer is returned; only the request's key can change, it is written if the answer is a 200 success (data, `now + TTL*1000`, replacing any entry), and otherwise the cache is unchanged |
| `Proxy.ExpiredEntryStays` | index.js:50-51 | an entry with `expire <= now` is a miss and stays in the cache unless a 200 answer replaces it |
| `Proxy.FailuresNotCached` | index.js:102-115 | an upstream error or transport failure never changes the cache |
| `Proxy.RepeatWithinTtl` | index.js:49-56 | after a 200 miss, the same request within the TTL gets the same status and body without an upstream call |
| `Proxy.RepeatAfterTtl` | index.js:49-51 | once the TTL has elapsed, the same request goes upstream again and returns the new answer |
| `Proxy.SameKeyIffSameRequest` | index.js:36-47 | two well-formed requests share a key if and only if they agree on method, path, serialised query and (for a non-GET) serialised body |
| `Proxy.NoSharingAcrossKeys` | index.js:50-51 | what one request caches never changes the response to, or the forwarding of, a request with a different key |

## Left out

- `logger.js`, `test-logs.js` and every logging call in the handler: they are output only and do not affect status, body or cache.
- The HTTP client call: its result is the `Outcome` input. The model does not cover which statuses the client reports as errors, the headers it adds itself (host, content length), how it drops headers set to `undefined`, or how it encodes the body.
- The artificial delay (`ENABLE_DELAY`, `REQUEST_DELAY`): a timer suspension that changes neither the response nor the cache.
- Koa and router wiring, the `/health` route, the framework error handler and `listen`: registration code with no decisions in it.
- Environment parsing: base address and TTL are constructor parameters; the defaults are the constants `DefaultBaseUrl` and `DefaultTtlSeconds`.
- `Date.now()`: the clock reading is the parameter `now`.
- Concurrency: each `Forward` is one atomic step. In the source, other requests can run between the cache read and the cache write, so the same key can be written twice.
- Koa's own response handling: headers set by other middleware, the content type and length that Koa's body setter adds or removes, the special cases for empty-body statuses, and exceptions Koa raises for an invalid status or header value.
- `ResponseHeaders.Lower`: ASCII lower-casing only, whereas `toLowerCase` is Unicode. Header names are ASCII tokens.
- Header values are strings; array-valued headers such as `set-cookie`, and the original name spelling that Node keeps for output, are not modelled.
- `JsonValues.Json`: numbers are integers; fractions, `NaN` and `-0` are not modelled. Clock and expiry values are unbounded integers, whereas the source's doubles are exact only up to 2^53.
- `CacheKeys.InsertionOrderChangesKey`: `JSON.stringify` moves array-index member names to the front in numeric order, so `?2=x&1=y` and `?1=y&2=x` share a key. The lemma is stated only for names that are not array indices, and the serialiser's reordering itself is not modelled.
- `CacheKeys.KeysDistinguish`: the serialiser's behaviour is not modelled, so distinctness of non-GET keys is proved under the assumption that no serialised object is a proper prefix of another, which holds of real JSON text.
- A transport error without a message: `message` is always some string.
