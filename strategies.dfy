/** The two retrieval strategies and the fallback chain (sw.js lines 46-85),
    as functions from the current cache, the network's answer and whether the
    store accepts a write, to the response and the cache afterwards. */
module Strategies {
  import opened SwTypes
  import opened Text
  import opened Classify

  /** Where a response came from. */
  datatype Origin = FromNetwork | FromCache(key: Key) | Synthetic

  /** The outcome of handling one intercepted request: the response, the
      current cache afterwards, whether the network was fetched, and where the
      response came from. */
  datatype Reply = Reply(resp: Response, cache: Cache, fetched: bool, origin: Origin)

  /** A best-effort `cache.put`: the entry is stored only when the store
      accepts it. A quota error, or a 206 partial response (which `cache.put`
      rejects), comes with `accepted == false`. */
  function WriteThrough(cache: Cache, key: Key, resp: Response, accepted: bool): (r: Cache)
    ensures accepted ==> key in r && r[key] == resp
    ensures forall k :: k != key ==> Lookup(r, k) == Lookup(cache, k)
    ensures !accepted ==> r == cache
  {
    if accepted then cache[key := resp] else cache
  }

  /** The documents tried, in order, when a network-first fetch fails. */
  const FALLBACK_CHAIN: seq<Key> := [INDEX, OFFLINE]

  /** The first key of `chain` that the cache holds. */
  function FirstCached(chain: seq<Key>, cache: Cache): (r: Option<Key>)
    ensures r.None? ==> forall i :: 0 <= i < |chain| ==> chain[i] !in cache
    ensures r.Some? ==> r.value in cache
    ensures r.Some? ==> exists i :: 0 <= i < |chain| && chain[i] == r.value && forall j :: 0 <= j < i ==> chain[j] !in cache
  {
    if |chain| == 0 then None
    else if chain[0] in cache then Some(chain[0])
    else
      var r := FirstCached(chain[1..], cache);
      if r.Some? then
        var i :| 0 <= i < |chain[1..]| && chain[1..][i] == r.value && forall j :: 0 <= j < i ==> chain[1..][j] !in cache;
        assert chain[i + 1] == r.value && forall j :: 0 <= j < i + 1 ==> chain[j] !in cache;
        r
      else
        r
  }

  /** What the fallback chain resolves to: its first cached document, or the
      503. It reads only index.html and offline.html, in that order, and
      never changes the cache. */
  function Resolve(cache: Cache): (r: Reply)
    ensures r.cache == cache && r.fetched
    ensures INDEX in cache ==> r.resp == cache[INDEX] && r.origin == FromCache(INDEX)
    ensures INDEX !in cache && OFFLINE in cache ==> r.resp == cache[OFFLINE] && r.origin == FromCache(OFFLINE)
    ensures INDEX !in cache && OFFLINE !in cache ==> r.resp == OFFLINE_RESPONSE && r.origin == Synthetic
  {
    assert FALLBACK_CHAIN[0] == INDEX && FALLBACK_CHAIN[1] == OFFLINE;
    match FirstCached(FALLBACK_CHAIN, cache)
    case Some(k) => Reply(cache[k], cache, true, FromCache(k))
    case None => Reply(OFFLINE_RESPONSE, cache, true, Synthetic)
  }

  /** Network-first, as sw.js runs it. It always fetches; a network answer
      is returned as is and is the only thing written; a failed fetch is
      answered by the fallback chain. */
  function NetworkFirstReply(req: Request, cache: Cache, network: FetchOutcome, accepted: bool): (r: Reply)
    ensures Honest(r, req, cache, network, accepted) && r.fetched
    ensures network.Ok? ==> r.origin == FromNetwork
    ensures network.Fail? ==> r == Resolve(cache)
  {
    match network
    case Ok(resp) => Reply(resp, WriteThrough(cache, req.url, resp, accepted), true, FromNetwork)
    case Fail =>
      if INDEX in cache then Reply(cache[INDEX], cache, true, FromCache(INDEX))
      else if OFFLINE in cache then Reply(cache[OFFLINE], cache, true, FromCache(OFFLINE))
      else Reply(OFFLINE_RESPONSE, cache, true, Synthetic)
  }

  /** Cache-first, as sw.js runs it, including its offline-page branch for
      requests that accept HTML. It fetches exactly on a miss, and for any
      request that is actually routed here a miss with a failed fetch is
      answered by the 503: the offline-page branch is dead. */
  function CacheFirstReply(req: Request, cache: Cache, network: FetchOutcome, accepted: bool): (r: Reply)
    ensures Honest(r, req, cache, network, accepted)
    ensures r.fetched <==> req.url !in cache
    ensures StrategyOf(req) == CacheFirst && req.url !in cache && network.Fail? ==>
      r.resp == OFFLINE_RESPONSE && r.origin == Synthetic
  {
    if req.url in cache then Reply(cache[req.url], cache, false, FromCache(req.url))
    else match network
      case Ok(resp) => Reply(resp, WriteThrough(cache, req.url, resp, accepted), true, FromNetwork)
      case Fail =>
        if Contains(AcceptOf(req), "text/html") && OFFLINE in cache then
          Reply(cache[OFFLINE], cache, true, FromCache(OFFLINE))
        else
          Reply(OFFLINE_RESPONSE, cache, true, Synthetic)
  }

  /** A reply is honest about its origin: a network response is the one the
      network gave and is the only thing ever written; a cached response is an
      entry of the cache and leaves it alone; the synthetic 503 appears only
      after a fetch failed. */
  predicate Honest(r: Reply, req: Request, cache: Cache, network: FetchOutcome, accepted: bool)
  {
    match r.origin
    case FromNetwork => network == Ok(r.resp) && r.fetched && r.cache == WriteThrough(cache, req.url, r.resp, accepted)
    case FromCache(k) => k in cache && r.resp == cache[k] && r.cache == cache
    case Synthetic => network.Fail? && r.fetched && r.resp == OFFLINE_RESPONSE && r.cache == cache
  }

  /** The fetch handler: None when the request is not intercepted. */
  function Respond(req: Request, cache: Cache, network: FetchOutcome, accepted: bool): (r: Option<Reply>)
    ensures r.None? <==> req.verb != "GET"
    ensures r.Some? ==> Honest(r.value, req, cache, network, accepted)
    ensures r.Some? && !r.value.fetched ==> r.value.origin == FromCache(req.url)
    ensures r.Some? && network.Fail? ==> r.value.cache == cache
  {
    match StrategyOf(req)
    case Bypass => None
    case NetworkFirst => Some(NetworkFirstReply(req, cache, network, accepted))
    case CacheFirst => Some(CacheFirstReply(req, cache, network, accepted))
  }

  /** Network-first with a working network returns exactly the network's
      response, whether or not the store accepted the copy, and the only
      change to the cache is that copy under the request's key. */
  lemma NetworkFirstSuccess(req: Request, cache: Cache, resp: Response, accepted: bool)
    requires StrategyOf(req) == NetworkFirst
    ensures Respond(req, cache, Ok(resp), accepted).Some?
    ensures Respond(req, cache, Ok(resp), accepted).value.resp == resp
    ensures Respond(req, cache, Ok(resp), accepted).value.resp == Respond(req, cache, Ok(resp), !accepted).value.resp
    ensures accepted ==> Respond(req, cache, Ok(resp), accepted).value.cache == cache[req.url := resp]
    ensures !accepted ==> Respond(req, cache, Ok(resp), accepted).value.cache == cache
  {
  }

  /** Network-first with a failed fetch resolves the fallback chain: cached
      index.html, else cached offline.html, else the 503; the cache is untouched. */
  lemma NetworkFirstFailure(req: Request, cache: Cache, accepted: bool)
    requires StrategyOf(req) == NetworkFirst
    ensures Respond(req, cache, Fail, accepted) == Some(Resolve(cache))
  {
  }

  /** When only offline.html is cached, a failed navigation gets it. */
  lemma OfflinePageWhenIndexMissing(req: Request, cache: Cache, accepted: bool)
    requires StrategyOf(req) == NetworkFirst && INDEX !in cache && OFFLINE in cache
    ensures Respond(req, cache, Fail, accepted).value.resp == cache[OFFLINE]
  {
  }

  /** A failed network-first request never consults its own cache entry:
      what is cached under its URL does not change the answer. */
  lemma NetworkFirstIgnoresOwnEntry(req: Request, cache: Cache, entry: Response, accepted: bool)
    requires StrategyOf(req) == NetworkFirst && req.url != INDEX && req.url != OFFLINE
    ensures Respond(req, cache[req.url := entry], Fail, accepted).value.resp ==
            Respond(req, cache - {req.url}, Fail, accepted).value.resp
  {
  }

  /** So an offline request for the app bundle is answered with index.html,
      although app.js itself is cached. */
  lemma AppBundleOfflineGetsIndex(cache: Cache, accepted: bool)
    requires INDEX in cache && "/app.js" in cache
    ensures Respond(Request("GET", "/app.js", "no-cors", None, "/app.js"), cache, Fail, accepted).value.resp == cache[INDEX]
  {
  }

  /** A cache-first hit returns the stored entry without touching the
      network or the cache, whatever the network would have said. */
  lemma CacheFirstHit(req: Request, cache: Cache, network: FetchOutcome, accepted: bool)
    requires StrategyOf(req) == CacheFirst && req.url in cache
    ensures Respond(req, cache, network, accepted) == Some(Reply(cache[req.url], cache, false, FromCache(req.url)))
  {
  }

  /** A cache-first miss with a working network returns the network response
      and stores it under the request's key when the store accepts it. */
  lemma CacheFirstMissSuccess(req: Request, cache: Cache, resp: Response, accepted: bool)
    requires StrategyOf(req) == CacheFirst && req.url !in cache
    ensures Respond(req, cache, Ok(resp), accepted) == Some(Reply(resp, WriteThrough(cache, req.url, resp, accepted), true, FromNetwork))
  {
  }

  /** A cache-first miss with a failed fetch is always the 503, even when
      offline.html is cached: a request that accepts HTML never reaches the
      cache-first strategy, so its offline-page branch is dead. */
  lemma CacheFirstMissFailure(req: Request, cache: Cache, accepted: bool)
    requires StrategyOf(req) == CacheFirst && req.url !in cache
    ensures Respond(req, cache, Fail, accepted) == Some(Reply(OFFLINE_RESPONSE, cache, true, Synthetic))
  {
  }

  /** With an empty cache and no network every intercepted request gets the 503. */
  lemma TotalFailure(req: Request, accepted: bool)
    requires req.verb == "GET"
    ensures Respond(req, map[], Fail, accepted) == Some(Reply(OFFLINE_RESPONSE, map[], true, Synthetic))
  {
  }
}
