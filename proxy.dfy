/**
 * The two routes and the cache middleware in front of them (index.js:26-82).
 * A request first goes through the middleware, which answers from the cache
 * on a live hit; on a miss the route handler builds its upstream query, calls
 * the upstream service once, caches a successful payload under the request's
 * own key and answers with it, or answers with a fixed 500 body on failure.
 *
 * The clock and the upstream call are parameters: `now` is the time the
 * middleware reads, `doneAt` the time the handler reads once the upstream
 * call has completed, and `outcome` what that call produced.
 */
module Proxy {
  import opened Wrappers
  import opened Cache
  import opened Query
  import Config

  const StatusOk: nat := 200
  const StatusServerError: nat := 500
  const ListFailure := "Failed to fetch earthquake data"
  const DetailFailure := "Failed to fetch earthquake details"

  /** An inbound request: its original URL (path and query, verbatim) and what the route parsed from it. */
  datatype Request =
    | ListRequest(url: string, filters: Filters)
    | DetailRequest(url: string, id: string)

  /** What is sent upstream: the list route's parameters, or the detail route's query string. */
  datatype UpstreamCall = ListCall(params: seq<Param>) | DetailCall(query: string)

  /** The result of the upstream call: a payload, or any failure (network, status, parse). */
  datatype Outcome<D> = Ok(data: D) | Fail

  datatype Body<D> = Payload(data: D) | Error(message: string)
  datatype Response<D> = Response(status: nat, body: Body<D>)

  function CallFor(req: Request): UpstreamCall
  {
    match req
    case ListRequest(_, f) => ListCall(ListParams(f))
    case DetailRequest(_, id) => DetailCall(DetailQuery(id))
  }

  /** The TTL the route's handler writes with; the middleware's own argument is never read. */
  function TtlFor(req: Request, settings: Config.Settings): nat
  {
    if req.ListRequest? then settings.listTtl else settings.detailTtl
  }

  function FailureFor(req: Request): string
  {
    if req.ListRequest? then ListFailure else DetailFailure
  }

  /** The response, the cache afterwards, and the upstream call made, if any. */
  datatype StepResult<D> = StepResult(response: Response<D>, entries: map<string, Entry<D>>, call: Option<UpstreamCall>)

  /** A route handler on a miss. */
  function Handle<D>(entries: map<string, Entry<D>>, req: Request, settings: Config.Settings,
                     doneAt: int, outcome: Outcome<D>): StepResult<D>
  {
    match outcome
    case Ok(d) =>
      StepResult(Response(StatusOk, Payload(d)),
                 Put(entries, CacheKey(req.url), d, doneAt, TtlFor(req, settings)),
                 Some(CallFor(req)))
    case Fail =>
      StepResult(Response(StatusServerError, Error(FailureFor(req))), entries, Some(CallFor(req)))
  }

  /** One request from arrival to response: the middleware, then the handler on a miss. */
  function Step<D>(entries: map<string, Entry<D>>, req: Request, settings: Config.Settings,
                   now: int, doneAt: int, outcome: Outcome<D>): StepResult<D>
  {
    match Get(entries, CacheKey(req.url), now)
    case Some(d) => StepResult(Response(StatusOk, Payload(d)), entries, None)
    case None => Handle(entries, req, settings, doneAt, outcome)
  }

  // ---------------------------------------------------------------------------
  // The middleware and handlers over the shared cache object.

  /** Answers from the cache exactly on a live entry for the request's key; the cache is only read. */
  method CacheMiddleware<D>(cache: ResponseCache<D>, url: string, now: int) returns (hit: Option<Response<D>>)
    ensures hit.Some? <==> Get(cache.entries, CacheKey(url), now).Some?
    ensures hit.Some? ==> hit.value == Response(StatusOk, Payload(Get(cache.entries, CacheKey(url), now).value))
  {
    var key := CacheKey(url);
    var cached := cache.Lookup(key, now);
    if cached.Some? {
      return Some(Response(StatusOk, Payload(cached.value)));
    }
    return None;
  }

  method ListRoute<D>(cache: ResponseCache<D>, url: string, f: Filters, ttlSeconds: nat,
                      doneAt: int, outcome: Outcome<D>) returns (resp: Response<D>, call: UpstreamCall)
    modifies cache
    ensures call == ListCall(ListParams(f))
    ensures outcome.Ok? ==>
      && resp == Response(StatusOk, Payload(outcome.data))
      && cache.entries == Put(old(cache.entries), CacheKey(url), outcome.data, doneAt, ttlSeconds)
    ensures outcome.Fail? ==>
      && resp == Response(StatusServerError, Error(ListFailure))
      && cache.entries == old(cache.entries)
  {
    call := ListCall(ListParams(f));
    match outcome
    case Ok(d) =>
      cache.Store(CacheKey(url), d, doneAt, ttlSeconds);
      resp := Response(StatusOk, Payload(d));
    case Fail =>
      resp := Response(StatusServerError, Error(ListFailure));
  }

  method DetailRoute<D>(cache: ResponseCache<D>, url: string, id: string, ttlSeconds: nat,
                        doneAt: int, outcome: Outcome<D>) returns (resp: Response<D>, call: UpstreamCall)
    modifies cache
    ensures call == DetailCall(DetailQuery(id))
    ensures outcome.Ok? ==>
      && resp == Response(StatusOk, Payload(outcome.data))
      && cache.entries == Put(old(cache.entries), CacheKey(url), outcome.data, doneAt, ttlSeconds)
    ensures outcome.Fail? ==>
      && resp == Response(StatusServerError, Error(DetailFailure))
      && cache.entries == old(cache.entries)
  {
    call := DetailCall(DetailQuery(id));
    match outcome
    case Ok(d) =>
      cache.Store(CacheKey(url), d, doneAt, ttlSeconds);
      resp := Response(StatusOk, Payload(d));
    case Fail =>
      resp := Response(StatusServerError, Error(DetailFailure));
  }

  /** Serves one request against the shared cache, as `Step` specifies. */
  method Serve<D>(cache: ResponseCache<D>, req: Request, settings: Config.Settings,
                  now: int, doneAt: int, outcome: Outcome<D>) returns (resp: Response<D>, call: Option<UpstreamCall>)
    modifies cache
    ensures StepResult(resp, cache.entries, call) == Step(old(cache.entries), req, settings, now, doneAt, outcome)
  {
    var hit := CacheMiddleware(cache, req.url, now);
    if hit.Some? {
      return hit.value, None;
    }
    var sent: UpstreamCall;
    match req {
      case ListRequest(url, f) =>
        resp, sent := ListRoute(cache, url, f, settings.listTtl, doneAt, outcome);
      case DetailRequest(url, id) =>
        resp, sent := DetailRoute(cache, url, id, settings.detailTtl, doneAt, outcome);
    }
    call := Some(sent);
  }

  // ---------------------------------------------------------------------------
  // Properties of one request.

  /** A live hit is answered from the cache with status 200, without an upstream call or a write. */
  lemma StepHit<D>(entries: map<string, Entry<D>>, req: Request, settings: Config.Settings,
                   now: int, doneAt: int, outcome: Outcome<D>)
    requires CacheKey(req.url) in entries && now < entries[CacheKey(req.url)].expiry
    ensures Step(entries, req, settings, now, doneAt, outcome)
         == StepResult(Response(StatusOk, Payload(entries[CacheKey(req.url)].data)), entries, None)
  {
  }

  /**
   * A miss makes exactly one upstream call, the route's own query. Success
   * answers with the payload and caches it under the request's key until
   * `doneAt` plus the route's TTL; failure answers with the route's fixed 500
   * body and leaves the cache as it was.
   */
  lemma StepMiss<D>(entries: map<string, Entry<D>>, req: Request, settings: Config.Settings,
                    now: int, doneAt: int, outcome: Outcome<D>)
    requires !(CacheKey(req.url) in entries && now < entries[CacheKey(req.url)].expiry)
    ensures var r := Step(entries, req, settings, now, doneAt, outcome);
      && r.call == Some(CallFor(req))
      && (outcome.Ok? ==>
            && r.response == Response(StatusOk, Payload(outcome.data))
            && r.entries == entries[CacheKey(req.url) := Entry(outcome.data, doneAt + TtlFor(req, settings) * 1000)])
      && (outcome.Fail? ==>
            && r.response == Response(StatusServerError, Error(if req.ListRequest? then "Failed to fetch earthquake data"
                                                                 else "Failed to fetch earthquake details"))
            && r.entries == entries)
  {
  }

  /** A request touches at most its own key: every other entry is kept, and no entry is ever removed. */
  lemma StepFrame<D>(entries: map<string, Entry<D>>, req: Request, settings: Config.Settings,
                     now: int, doneAt: int, outcome: Outcome<D>)
    ensures var r := Step(entries, req, settings, now, doneAt, outcome);
      && entries.Keys <= r.entries.Keys
      && r.entries.Keys <= entries.Keys + {CacheKey(req.url)}
      && forall k :: k in entries && k != CacheKey(req.url) ==> r.entries[k] == entries[k]
  {
  }

  /**
   * After a request for `url` is served from upstream, a later request for the
   * same URL (on either route) is a hit returning that payload, with no new
   * upstream call, exactly while its arrival time is before `doneAt` plus the
   * TTL; from then on it misses and makes one new upstream call.
   */
  lemma RepeatedRequest<D>(entries: map<string, Entry<D>>, req: Request, settings: Config.Settings,
                           now: int, doneAt: int, d: D,
                           req': Request, now': int, doneAt': int, outcome': Outcome<D>)
    requires Get(entries, CacheKey(req.url), now).None?
    requires req'.url == req.url
    ensures var first := Step(entries, req, settings, now, doneAt, Ok(d));
            var second := Step(first.entries, req', settings, now', doneAt', outcome');
      && (now' < doneAt + TtlFor(req, settings) * 1000 ==>
            second == StepResult(Response(StatusOk, Payload(d)), first.entries, None))
      && (now' >= doneAt + TtlFor(req, settings) * 1000 ==> second.call == Some(CallFor(req')))
  {
  }

  /** Requests whose URLs differ, even only in query-parameter order, never answer for each other. */
  lemma DistinctUrlsIndependent<D>(entries: map<string, Entry<D>>, req: Request, settings: Config.Settings,
                                   now: int, doneAt: int, outcome: Outcome<D>,
                                   req': Request, now': int, doneAt': int, outcome': Outcome<D>)
    requires req'.url != req.url
    ensures var first := Step(entries, req, settings, now, doneAt, outcome);
            var second := Step(first.entries, req', settings, now', doneAt', outcome');
            var alone := Step(entries, req', settings, now', doneAt', outcome');
      second.response == alone.response && second.call == alone.call
  {
    CacheKeyInjective(req.url, req'.url);
    var first := Step(entries, req, settings, now, doneAt, outcome);
    StepFrame(entries, req, settings, now, doneAt, outcome);
    assert Get(first.entries, CacheKey(req'.url), now') == Get(entries, CacheKey(req'.url), now');
  }

  /**
   * The two orders of the same list query are cached apart: a payload cached
   * for one does not answer the other.
   */
  lemma ReorderedQueryMisses<D>(settings: Config.Settings, now: int, doneAt: int, d: D,
                                f: Filters, now': int, doneAt': int)
    ensures var a := "/earthquakes?minMagnitude=5&limit=3";
            var b := "/earthquakes?limit=3&minMagnitude=5";
            var first := Step(map[], ListRequest(a, f), settings, now, doneAt, Ok(d));
            var second := Step(first.entries, ListRequest(b, f), settings, now', doneAt', Fail);
      second.call == Some(ListCall(ListParams(f)))
      && second.response == Response(StatusServerError, Error(ListFailure))
  {
    var a := "/earthquakes?minMagnitude=5&limit=3";
    var b := "/earthquakes?limit=3&minMagnitude=5";
    assert a[13] != b[13];
    DistinctUrlsIndependent(map[], ListRequest(a, f), settings, now, doneAt, Ok(d),
                            ListRequest(b, f), now', doneAt', Fail);
  }

  /** A failed detail lookup on a cold cache answers exactly 500 with the details message. */
  lemma DetailFailureOnColdCache<D>(settings: Config.Settings, now: int, doneAt: int, outcome: Outcome<D>)
    requires outcome.Fail?
    ensures Step(map[], DetailRequest("/earthquakes/us7000abcd", "us7000abcd"), settings, now, doneAt, outcome)
         == StepResult(Response(500, Error("Failed to fetch earthquake details")), map[],
                       Some(DetailCall("eventid=us7000abcd&format=geojson")))
  {
    assert DetailQuery("us7000abcd") == "eventid=us7000abcd&format=geojson";
  }

  // ---------------------------------------------------------------------------
  // A sequence of requests served one after another.

  datatype Arrival<D> = Arrival(req: Request, now: int, doneAt: int, outcome: Outcome<D>)
  datatype RunResult<D> = RunResult(entries: map<string, Entry<D>>, responses: seq<Response<D>>, calls: seq<UpstreamCall>)

  function Run<D>(entries: map<string, Entry<D>>, settings: Config.Settings, arrivals: seq<Arrival<D>>): RunResult<D>
    decreases |arrivals|
  {
    if arrivals == [] then RunResult(entries, [], [])
    else
      var a := arrivals[0];
      var r := Step(entries, a.req, settings, a.now, a.doneAt, a.outcome);
      var rest := Run(r.entries, settings, arrivals[1..]);
      RunResult(rest.entries, [r.response] + rest.responses, CallList(r.call) + rest.calls)
  }

  /** The upstream calls one request made: none on a hit, one on a miss. */
  function CallList(call: Option<UpstreamCall>): seq<UpstreamCall>
  {
    match call
    case Some(c) => [c]
    case None => []
  }

  /**
   * Serving one more request after a run extends it by exactly that request:
   * its `Step` from the cache the run left behind gives the new cache, one
   * more response at the end, and at most one more upstream call at the end.
   */
  lemma {:induction false} RunSnoc<D>(entries: map<string, Entry<D>>, settings: Config.Settings,
                                       arrivals: seq<Arrival<D>>, last: Arrival<D>)
    ensures var before := Run(entries, settings, arrivals);
            var s := Step(before.entries, last.req, settings, last.now, last.doneAt, last.outcome);
      Run(entries, settings, arrivals + [last])
        == RunResult(s.entries, before.responses + [s.response], before.calls + CallList(s.call))
    decreases |arrivals|
  {
    if arrivals == [] {
      assert [] + [last] == [last];
      assert [last][1..] == [];
    } else {
      var a := arrivals[0];
      var first := Step(entries, a.req, settings, a.now, a.doneAt, a.outcome);
      assert (arrivals + [last])[0] == a;
      assert (arrivals + [last])[1..] == arrivals[1..] + [last];
      RunSnoc(first.entries, settings, arrivals[1..], last);
    }
  }

  /** The URL keys of a sequence of requests. */
  function KeysOf<D>(arrivals: seq<Arrival<D>>): set<string>
  {
    set i | 0 <= i < |arrivals| :: CacheKey(arrivals[i].req.url)
  }

  /**
   * Over any run, every request gets one response, at most one upstream call
   * is made per request, no entry is ever evicted, and every new key is the
   * key of some request in the run.
   */
  lemma {:induction false} RunInvariants<D>(entries: map<string, Entry<D>>, settings: Config.Settings,
                                             arrivals: seq<Arrival<D>>)
    ensures var r := Run(entries, settings, arrivals);
      && |r.responses| == |arrivals|
      && |r.calls| <= |arrivals|
      && entries.Keys <= r.entries.Keys
      && r.entries.Keys <= entries.Keys + KeysOf(arrivals)
    decreases |arrivals|
  {
    if arrivals != [] {
      var a := arrivals[0];
      var s := Step(entries, a.req, settings, a.now, a.doneAt, a.outcome);
      StepFrame(entries, a.req, settings, a.now, a.doneAt, a.outcome);
      RunInvariants(s.entries, settings, arrivals[1..]);
      assert CacheKey(a.req.url) in KeysOf(arrivals);
      forall k | k in KeysOf(arrivals[1..]) ensures k in KeysOf(arrivals) {
        var i :| 0 <= i < |arrivals[1..]| && k == CacheKey(arrivals[1..][i].req.url);
        assert arrivals[1..][i] == arrivals[i + 1];
      }
    }
  }
}
