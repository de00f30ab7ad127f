/** The service worker's four event handlers (sw.js), run step by step
    against the cache storage. The network's answers and whether the store
    accepts each write are passed in by the host. */
module Worker {
  import opened SwTypes
  import opened Text
  import opened Classify
  import opened Strategies
  import opened Precache
  import opened Lifecycle
  import opened Storage

  class ServiceWorker {
    /** The origin's cache storage, shared with earlier worker versions. */
    const storage: CacheStorage
    /** How many requests this worker has sent to the network. */
    var fetchCount: nat
    /** Whether `skipWaiting` has been called. */
    var skipWaitingCalled: bool

    constructor(storage: CacheStorage)
      ensures this.storage == storage && fetchCount == 0 && !skipWaitingCalled
    {
      this.storage := storage;
      fetchCount := 0;
      skipWaitingCalled := false;
    }

    /** The install handler: open the current cache, add every asset with
        each failure caught, then skip waiting. `replies[i]` and `accepted[i]`
        are the network's answer and the store's verdict for `ASSETS[i]`. */
    method Install(replies: seq<FetchOutcome>, accepted: seq<bool>)
      requires |replies| == |ASSETS| && |accepted| == |ASSETS|
      modifies this, storage
      ensures storage.caches == old(storage.caches)[CACHE := Precached(CurrentOf(old(storage.caches)), ASSETS, replies, accepted)]
      ensures fetchCount == old(fetchCount) + |ASSETS|
      ensures skipWaitingCalled
    {
      storage.Open(CACHE);
      AddAll(ASSETS, replies, accepted);
      skipWaitingCalled := true;
    }

    /** Adds each of `assets` to the current cache, catching each add's
        failure on its own. */
    method AddAll(assets: seq<Key>, replies: seq<FetchOutcome>, accepted: seq<bool>)
      requires |replies| == |assets| && |accepted| == |assets|
      requires CACHE in storage.caches
      modifies this, storage
      ensures storage.caches == old(storage.caches)[CACHE := Precached(old(storage.caches)[CACHE], assets, replies, accepted)]
      ensures fetchCount == old(fetchCount) + |assets|
      ensures skipWaitingCalled == old(skipWaitingCalled)
    {
      ghost var start := storage.caches[CACHE];
      var i := 0;
      while i < |assets|
        invariant 0 <= i <= |assets|
        invariant storage.caches == old(storage.caches)[CACHE := Precached(start, assets[..i], replies[..i], accepted[..i])]
        invariant fetchCount == old(fetchCount) + i
        invariant skipWaitingCalled == old(skipWaitingCalled)
      {
        // cache.add: fetch, refuse a response that is not ok or is partial, then put
        fetchCount := fetchCount + 1;
        var reply := replies[i];
        if reply.Ok? && 200 <= reply.resp.status <= 299 && reply.resp.status != 206 {
          storage.Put(CACHE, assets[i], reply.resp, accepted[i]);
        }
        assert assets[..i + 1][..i] == assets[..i] && replies[..i + 1][..i] == replies[..i] && accepted[..i + 1][..i] == accepted[..i];
        i := i + 1;
      }
      assert assets[..i] == assets && replies[..i] == replies && accepted[..i] == accepted;
    }

    /** The activate handler: delete every cache whose name is not the
        current version. */
    method Activate()
      modifies storage
      ensures storage.caches == Retained(old(storage.caches))
    {
      var names := storage.Keys();
      while names != {}
        invariant names <= old(storage.caches).Keys
        invariant forall n :: n in storage.caches <==> n in old(storage.caches) && (n == CACHE || n in names)
        invariant forall n :: n in storage.caches ==> storage.caches[n] == old(storage.caches)[n]
        decreases names
      {
        var k :| k in names;
        if k != CACHE {
          var _ := storage.Delete(k);
        }
        names := names - {k};
      }
      assert storage.caches.Keys == Retained(old(storage.caches)).Keys;
    }

    /** The message handler. */
    method HandleMessage(data: Option<MessageData>)
      modifies this
      ensures skipWaitingCalled == (old(skipWaitingCalled) || AsksToSkipWaiting(data))
      ensures fetchCount == old(fetchCount)
    {
      if data.Some? && data.value.msgType == Some("SKIP_WAITING") {
        skipWaitingCalled := true;
      }
    }

    /** The fetch handler. `network` is what the network would answer this
        request, `accepted` whether the store takes the write-through.
        The result is None when the request is left to the browser. */
    method HandleFetch(req: Request, network: FetchOutcome, accepted: bool) returns (resp: Option<Response>)
      modifies this, storage
      ensures var r := Respond(req, CurrentOf(old(storage.caches)), network, accepted);
        && (r.None? ==> resp.None? && storage.caches == old(storage.caches) && fetchCount == old(fetchCount))
        && (r.Some? ==> resp == Some(r.value.resp)
                        && storage.caches == old(storage.caches)[CACHE := r.value.cache]
                        && fetchCount == old(fetchCount) + (if r.value.fetched then 1 else 0))
      ensures skipWaitingCalled == old(skipWaitingCalled)
    {
      if req.verb != "GET" {
        return None;
      }
      if IsNavigation(req) || IsAppJs(req) {
        var r := ServeNetworkFirst(req, network, accepted);
        resp := Some(r);
      } else {
        var r := ServeCacheFirst(req, network, accepted);
        resp := Some(r);
      }
    }

    /** Network-first: fetch; on success write a copy through and return the
        network response; on failure try index.html, then offline.html, then
        answer 503. */
    method ServeNetworkFirst(req: Request, network: FetchOutcome, accepted: bool) returns (resp: Response)
      modifies this, storage
      ensures var r := NetworkFirstReply(req, CurrentOf(old(storage.caches)), network, accepted);
        && resp == r.resp
        && storage.caches == old(storage.caches)[CACHE := r.cache]
        && fetchCount == old(fetchCount) + 1
      ensures skipWaitingCalled == old(skipWaitingCalled)
    {
      fetchCount := fetchCount + 1;
      match network
      case Ok(networkResp) =>
        storage.Open(CACHE);
        storage.Put(CACHE, req.url, networkResp, accepted);
        resp := networkResp;
      case Fail =>
        storage.Open(CACHE);
        var cachedIndex := storage.Match(CACHE, INDEX);
        if cachedIndex.Some? {
          return cachedIndex.value;
        }
        var offline := storage.Match(CACHE, OFFLINE);
        if offline.Some? {
          return offline.value;
        }
        resp := OFFLINE_RESPONSE;
    }

    /** Cache-first: a hit is returned as is; a miss is fetched and written
        through; a failed fetch falls back to offline.html for a request that
        accepts HTML, and to 503 otherwise. */
    method ServeCacheFirst(req: Request, network: FetchOutcome, accepted: bool) returns (resp: Response)
      modifies this, storage
      ensures var r := CacheFirstReply(req, CurrentOf(old(storage.caches)), network, accepted);
        && resp == r.resp
        && storage.caches == old(storage.caches)[CACHE := r.cache]
        && fetchCount == old(fetchCount) + (if r.fetched then 1 else 0)
      ensures skipWaitingCalled == old(skipWaitingCalled)
    {
      storage.Open(CACHE);
      var cached := storage.Match(CACHE, req.url);
      if cached.Some? {
        return cached.value;
      }
      fetchCount := fetchCount + 1;
      match network
      case Ok(fetched) =>
        storage.Put(CACHE, req.url, fetched, accepted);
        resp := fetched;
      case Fail =>
        if Contains(AcceptOf(req), "text/html") {
          var offline := storage.Match(CACHE, OFFLINE);
          if offline.Some? {
            return offline.value;
          }
        }
        resp := OFFLINE_RESPONSE;
    }
  }

  /** After an install in which index.html was stored, a navigation made
      while the network is down is answered with that stored index.html. */
  lemma InstalledIndexServesOfflineNavigation(storage: map<CacheName, Cache>, replies: seq<FetchOutcome>,
                                              accepted: seq<bool>, req: Request, ok: bool)
    requires |replies| == |ASSETS| && |accepted| == |ASSETS|
    requires Added(replies[0], accepted[0])
    requires req.verb == "GET" && req.mode == "navigate"
    ensures var installed := Precached(CurrentOf(storage), ASSETS, replies, accepted);
      Respond(req, installed, Fail, ok).value.resp == replies[0].resp
  {
    AssetsDistinct();
    PrecachedAt(CurrentOf(storage), ASSETS, replies, accepted, 0);
  }
}
