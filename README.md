# Earthquake proxy: response cache and upstream queries

A model of the small Express proxy in `index.js` that forwards earthquake
queries to the USGS event catalogue. Two routes, `GET /earthquakes` and
`GET /earthquakes/:id`, sit behind a cache middleware. The middleware
answers from a process-wide map when the entry for the request's key is
still live. On a miss the route builds its upstream query and calls the
catalogue once. A successful payload is cached under the request's own key
with an expiry of `Date.now() + ttl * 1000` and returned. A failure returns
a fixed 500 body and leaves the cache untouched.

Modules:

- `Wrappers` (`wrappers.dfy`): `Option`, standing for a JavaScript value that may be `undefined`.
- `Config` (`config.dfy`): environment settings and their `||` fallbacks. Cache TTLs default to 300 s for the list route and 600 s for the detail route. The rate-limit window defaults to 60000 ms and the ceiling to 100 requests.
- `Cache` (`cache.dfy`): cache keys (`"cache:"` followed by the original URL, verbatim), entries `{data, expiry}`, the lookup predicate `now < expiry`, last-write-wins writes, and the class `ResponseCache` holding the map as a mutable field.
- `Query` (`query.dfy`): the list route's ordered parameter pairs and the detail route's `eventid=<id>&format=geojson` string.
- `Proxy` (`proxy.dfy`): the middleware and the two route handlers as methods over the shared `ResponseCache`. The pure function `Step` specifies one request. `Run` specifies a sequence of requests.

The clock and the upstream call are parameters. `now` is the time the
middleware reads. `doneAt` is the time the handler reads after the upstream
call has completed, so a cached entry's expiry counts from completion, not
from arrival. `Outcome` (`Ok(data)` or `Fail`) is what the call produced.
The payload is an opaque type parameter `D`.

The middleware is created with a TTL argument (`cacheMiddleware(duration)`)
that it never reads. The TTL that matters is the one each handler uses in
`cache.set`, so `CacheMiddleware` takes no TTL.

The detail route splices the id into its query string without encoding.
An id containing `&` therefore adds parameters to the upstream query. The
model keeps that behaviour: `DetailQuery` is plain concatenation, and
`Query.DetailQueryInjects` shows an id that smuggles in a `limit`.

## Model

| member | source | states |
|---|---|---|
| Cache.CacheKeyInjective | index.js:28 | two URLs have the same cache key exactly when they are the same string: no normalisation |
| Cache.PutThenGet | index.js:55-58 | after a write at `t` with TTL `s`, a lookup at `t'` returns the written payload exactly when `t' < t + s*1000`, and misses otherwise |
| Cache.PutFrame | index.js:55-58 | a write adds or replaces exactly its own key; every other entry and every lookup on another key is unchanged |
| Cache.GetStaysStale | index.js:31 | once a lookup misses at some time, every lookup of the same key at a later time misses too, as long as nothing is written |
| Cache.ResponseCache.constructor | index.js:11 | the cache starts as an empty map |
| Cache.ResponseCache.Lookup | index.js:29-31 | returns the cached payload iff an entry exists for the key and `now < expiry`; it only reads the map, so an expired entry stays in place |
| Cache.ResponseCache.Store | index.js:55-58 | the map afterwards is the old map with the key set to the payload and expiry `now + ttl*1000`; nothing else changes |
| Query.ListParamsMatchSupplied | index.js:41-49 | each of starttime, endtime, minmagnitude, maxmagnitude occurs once with the supplied value when the field is truthy, and not at all otherwise; `limit` occurs once with the field's value, or "10" only when the field is absent; `format=geojson` occurs once; no other name occurs |
| Query.ListParamsOrdered | index.js:44-49 | the names follow the fixed order starttime, endtime, minmagnitude, maxmagnitude, limit, format, and the query ends with exactly the `limit` pair then `format=geojson` |
| Query.ListParamsLength | index.js:44-49 | the list query has two fixed pairs plus one per truthy filter |
| Query.DetailQueryRendered | index.js:69 | the detail query string is the pairs `eventid=<id>` and `format=geojson` joined by `&`, without encoding |
| Query.DetailQueryRoundTrip | index.js:69 | reading the id back out of the detail query gives the id unchanged |
| Query.DetailQueryInjects | index.js:69 | the id is spliced in unencoded: the id `x&limit=1` yields the same query string as the three pairs `eventid=x`, `limit=1`, `format=geojson` |
| Query.DetailQueryInjective | index.js:69 | distinct ids give distinct detail queries |
| Config.Resolve | index.js:19-20 | rate-limit settings fall back to 60000 ms and 100 exactly when `parseInt` gives NaN or 0, so neither is ever 0; a cache TTL (lines 57 and 75) falls back to 300 or 600 only when unset or empty, and a present 0 is kept |
| Proxy.CacheMiddleware | index.js:27-36 | answers with status 200 and the cached payload iff a live entry exists under `"cache:" + url`; otherwise passes the request on; the cache is only read |
| Proxy.ListRoute | index.js:39-64 | sends the list parameters upstream; on success answers 200 with the payload and caches it under the request's key with the list TTL; on failure answers 500 "Failed to fetch earthquake data" and leaves the cache unchanged |
| Proxy.DetailRoute | index.js:66-82 | sends `eventid=<id>&format=geojson` upstream; on success answers 200 and caches under the request's key with the detail TTL; on failure answers 500 "Failed to fetch earthquake details" and leaves the cache unchanged |
| Proxy.Serve | index.js:39-82 | the middleware then the route handler, with response, new cache and upstream call equal to the specification `Step` |
| Proxy.StepHit | index.js:31-33 | a live hit answers 200 with the cached payload, makes no upstream call and writes nothing |
| Proxy.StepMiss | index.js:51-80 | a miss makes exactly one upstream call with the route's query; success answers with the payload and stores it with expiry `doneAt + ttl*1000`; failure answers 500 with the route's fixed message and leaves the cache as it was |
| Proxy.StepFrame | index.js:53-76 | a request changes at most the entry under its own key and never removes an entry |
| Proxy.RepeatedRequest | index.js:28-58 | after a request is served from upstream, a later request for the same URL is a hit with the same payload and no upstream call exactly while it arrives before `doneAt + ttl*1000`; after that it makes one new upstream call |
| Proxy.DistinctUrlsIndependent | index.js:28 | serving one URL never changes the response or upstream call of a request for a different URL |
| Proxy.ReorderedQueryMisses | index.js:54 | a list payload cached for `?minMagnitude=5&limit=3` does not answer `?limit=3&minMagnitude=5`, which goes upstream |
| Proxy.DetailFailureOnColdCache | index.js:79-80 | a failed detail fetch of `us7000abcd` on an empty cache answers exactly 500 "Failed to fetch earthquake details", after sending `eventid=us7000abcd&format=geojson` |
| Proxy.RunInvariants | index.js:27-82 | over any sequence of requests there are as many responses as requests and no more upstream calls than requests; no entry is ever evicted, and every new key is the key of a request in the sequence |
| Proxy.RunSnoc | index.js:27-82 | serving one more request after a run extends it by exactly that request's `Step` from the cache the run left: one more response at the end, and at most that request's one upstream call at the end |

## Left out

- Rate limiting (`express-rate-limit`, index.js:18-24) is a third-party fixed-window limiter whose source is not part of this model. Only the fallbacks of its two settings are modelled, in `Config.Resolve`.
- `parseInt` and the `string * 1000` coercion are JavaScript library behaviour. Parsed rate-limit settings arrive as `Option<int>`, with `None` for NaN.
- Config.Resolve: takes a cache TTL as a whole number of seconds. A negative, fractional or non-numeric TTL string (a non-numeric one gives a NaN expiry that never hits) is not modelled.
- Query values are single strings. Express can also parse a repeated field into an array or a bracketed field into an object; those are not modelled.
- URLSearchParams percent-encoding and the upstream base URL's serialisation are not modelled. The list query is kept as raw name/value pairs.
- The axios call is network I/O. It is an `Outcome` supplied by the caller, together with the time it completes.
- The catch-all error handler (index.js:85-88) answers 500 "Something went wrong!" and logs the stack. The two handlers catch every upstream failure themselves, and the model has no other fault that reaches the catch-all, so it is not modelled.
- Express routing, CORS, JSON body parsing, `PORT` and `app.listen` (index.js:1-15, 91-93) are framework plumbing and I/O.
- Concurrent requests that interleave at the upstream `await` are not modelled. Two cold requests for one key can both call upstream; the model serves requests one at a time (`Run`).
- The cache is unbounded; entries are never evicted. The model keeps that (`Proxy.RunInvariants`).
- load-test.js is an HTTP load generator with no logic of its own and is not part of this model.
