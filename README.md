# Offline caching policy of the Fire Parts Lookup service worker

This project models the service worker `sw.js` of a small offline-capable
web application. The worker sits between the page and the network and
decides, request by request, whether to answer from the versioned cache,
from the network, or with a degraded answer. The model covers:

- **Classification.** A request that is not GET is left to the browser.
  A GET is a *navigation* when its mode is `navigate` or its accept
  header contains `text/html`. It is the *app bundle* when its path ends
  in `app.js`. Navigations and the bundle go network-first. Every other
  GET goes cache-first.
- **Network-first.** Fetch. On success, write a copy into the current
  cache (best effort) and return the network response. On failure,
  answer with cached `index.html`, else cached `offline.html`, else a
  synthetic 503 "Offline".
- **Cache-first.** Return a hit without touching the network. On a miss,
  fetch and write through. If the fetch fails, answer 503. The source
  also has an `offline.html` branch for requests that accept HTML. The
  model proves that branch dead, because such requests are always routed
  network-first.
- **Install.** Open the current cache `fpl-v5-3-4` and add each of the
  seven assets. Each add's failure is caught on its own. Then call
  `skipWaiting`.
- **Activate.** Delete every cache whose name is not the current version.
- **Message.** A message whose data has type `SKIP_WAITING` calls
  `skipWaiting`.

Pure decisions are functions: `Classify.StrategyOf`, `Strategies.Respond`,
`Precache.Precached` and `Lifecycle.Retained`. The handlers are methods of
the class `Worker.ServiceWorker`. They change a `Storage.CacheStorage`
object in place and are proved against those functions.

The environment is passed in explicitly. Each handler receives the
network's answer (`Ok(response)` or `Fail`) and a flag saying whether
the store accepts a write. A write can be refused for quota or for a
partial response. `fetchCount` counts how many times the worker touched
the network.

`Strategies.Reply` records where each answer came from: the network, a
cache entry, or the synthetic 503. `Respond`'s contract states that this
record is honest. A network answer is the network's own response, and
the write-through copy is the only change ever made to the cache. A
cached answer is an entry of the cache. The 503 only follows a failed
fetch.

Two details of the code shape the model:
- The `index.html`/`offline.html` chain is consulted for every
  network-first request, the app bundle included
  (`Strategies.AppBundleOfflineGetsIndex`).
- The network-first write-through is awaited before the response is
  returned (sw.js:52), so it is modelled as a synchronous step.

## Model

| member | source | states |
|---|---|---|
| SwTypes.Opened | sw.js:16 | `caches.open` leaves every existing cache as it was and adds the named cache, empty, only when it is missing |
| SwTypes.AssetsDistinct | sw.js:4-12 | the seven precached asset names are pairwise distinct |
| Text.ContainsIffOccurs | sw.js:41 | the substring scan used for `includes` holds exactly when the pattern occurs at some index of the string |
| Classify.IsNavigation | sw.js:41 | a request is a navigation iff its mode is `navigate` or `text/html` occurs at some index of its accept header; with no accept header, iff its mode is `navigate` |
| Classify.IsAppJs | sw.js:42 | the bundle test holds iff the path ends in `app.js`; the `/app.js` disjunct is subsumed |
| Classify.LooseBundleMatch | sw.js:42 | a path such as `/myapp.js` is treated as the bundle and routed network-first |
| Classify.StrategyOf | sw.js:39-45 | non-GET requests bypass the worker; network-first iff GET and (mode `navigate` or accept contains `text/html` or path ends in `app.js`); cache-first otherwise |
| Classify.HtmlIsNeverCacheFirst | sw.js:41-45 | a request whose accept header contains `text/html` is never served cache-first |
| Strategies.WriteThrough | sw.js:52 | a best-effort put stores the response under the key when accepted, changes no other key, and changes nothing when refused |
| Strategies.FirstCached | sw.js:56-60 | the result is a cached key of the chain with every earlier chain key absent, or None when no chain key is cached |
| Strategies.Resolve | sw.js:55-61 | the fallback answer is cached index.html if present, else cached offline.html if present, else the 503; the cache is never changed |
| Strategies.NetworkFirstReply | sw.js:46-63 | network-first always fetches; its answer is honest about its origin; a network answer is returned as is; a failed fetch is answered exactly by `Resolve` |
| Strategies.CacheFirstReply | sw.js:68-85 | cache-first fetches exactly on a miss; its answer is honest about its origin; for a request routed cache-first, a miss with a failed fetch is always the 503 |
| Strategies.Respond | sw.js:38-85 | None exactly for non-GET requests; otherwise the answer is honest about its origin (network answer, cache entry, or 503 only after a failed fetch); no network fetch means the request's own cache hit; a failed fetch never changes the cache |
| Strategies.NetworkFirstSuccess | sw.js:47-53 | network-first with a working network returns the network response whether or not the put was accepted; the cache gains that response under the request key exactly when accepted |
| Strategies.NetworkFirstFailure | sw.js:54-61 | network-first with a failed fetch answers with the first cached entry of the chain index.html, offline.html, else 503; the cache is unchanged |
| Strategies.OfflinePageWhenIndexMissing | sw.js:57-60 | with index.html absent and offline.html cached, a failed network-first request gets offline.html |
| Strategies.NetworkFirstIgnoresOwnEntry | sw.js:54-61 | on network failure the request's own cache entry does not affect the answer |
| Strategies.AppBundleOfflineGetsIndex | sw.js:42-58 | an offline request for `/app.js` is answered with cached index.html even though app.js itself is cached |
| Strategies.CacheFirstHit | sw.js:69-71 | a cache-first hit returns the entry with no fetch and no cache change, whatever the network would answer |
| Strategies.CacheFirstMissSuccess | sw.js:72-75 | a cache-first miss with a working network returns the network response and best-effort stores it under the request key |
| Strategies.CacheFirstMissFailure | sw.js:76-83 | a cache-first miss with a failed fetch always yields the 503, even when offline.html is cached: the text/html branch is unreachable |
| Strategies.TotalFailure | sw.js:54-83 | with an empty cache and no network every GET gets the 503 and the cache stays empty |
| Precache.Added | sw.js:19-24 | an add succeeds only if the store accepted and the fetch answered; a status outside 200-299 or a 206 always fails; a 200 that the store accepts always succeeds |
| Precache.AddAsset | sw.js:19-24 | one caught `cache.add` sets the asset's entry to the fetched response when it succeeds, leaves it as it was when it fails, and changes no other key |
| Precache.Precached | sw.js:18-25 | the keys after precaching are the old keys plus exactly the assets whose add succeeded |
| Precache.PrecachedAt | sw.js:18-25 | each asset's entry is its own fetched response when its add succeeded and its earlier entry otherwise, independent of the other assets' outcomes and of completion order |
| Precache.PrecachedElsewhere | sw.js:18-25 | precaching leaves entries for keys that are not assets unchanged |
| Precache.PrecachedTwice | sw.js:18-25 | after two precaches each asset holds the later run's response if that add succeeded, else the earlier run's, else its original entry |
| Precache.PrecacheIdempotent | sw.js:18-25 | repeating a precache with the same outcomes changes nothing |
| Lifecycle.Retained | sw.js:32-33 | after activation only the current cache name remains; it keeps exactly its prior contents; it is never created |
| Lifecycle.AsksToSkipWaiting | sw.js:90 | a message asks to skip waiting iff its data is present and its type is exactly `SKIP_WAITING` |
| Lifecycle.RetainedIdempotent | sw.js:32-33 | a second activation deletes nothing more |
| Storage.CacheStorage.Open | sw.js:16 | opening creates the named cache when missing and changes nothing else |
| Storage.CacheStorage.Match | sw.js:57 | a lookup returns the stored entry when the key is present and nothing otherwise |
| Storage.CacheStorage.Put | sw.js:52 | an accepted put replaces the key's entry in the named cache; a refused put changes nothing |
| Storage.CacheStorage.Keys | sw.js:32 | returns exactly the names of the existing caches |
| Storage.CacheStorage.Delete | sw.js:33 | removes the named cache and reports whether it existed |
| Worker.ServiceWorker.Install | sw.js:14-28 | the current cache becomes the precache of its prior contents over the seven assets, one fetch per asset, and `skipWaiting` is reached whatever failed |
| Worker.ServiceWorker.AddAll | sw.js:18-25 | the loop of per-asset adds leaves the current cache equal to `Precached` of its prior contents |
| Worker.ServiceWorker.Activate | sw.js:30-36 | the storage afterwards is `Retained` of the storage before |
| Worker.ServiceWorker.HandleMessage | sw.js:89-93 | `skipWaiting` is called exactly when the message data is present and its type is `SKIP_WAITING`; nothing else changes |
| Worker.ServiceWorker.HandleFetch | sw.js:38-86 | response, storage and fetch count afterwards are those of `Respond`; a non-GET request changes nothing and touches no network |
| Worker.ServiceWorker.ServeNetworkFirst | sw.js:46-63 | the step-by-step network-first branch produces `NetworkFirstReply`'s response and cache, with one fetch |
| Worker.ServiceWorker.ServeCacheFirst | sw.js:68-85 | the step-by-step cache-first branch produces `CacheFirstReply`'s response and cache, fetching only on a miss |
| Worker.InstalledIndexServesOfflineNavigation | sw.js:18-58 | after an install that stored index.html, an offline navigation is answered with that index.html |

## Left out

- The browser's Cache Storage, `fetch`, `Response`, `URL` and `Headers` objects. They are replaced by a map from cache name to a map from key to response, a network answer passed in per fetch, and a path and accept header given as plain strings.
- URL parsing and resolution. A key is a URL already resolved against the worker's location. The asset name `index.html` stands for the URL it resolves to. The request's `pathname` is given as a field.
- Cache matching by the `Vary` header, and any rule of `cache.put` other than "accepted or refused". A quota error or a 206 partial response in the fetch handler's write-through is a refusal (`accepted == false`); at install, `cache.add` refuses a 206 itself.
- Promise concurrency. The adds of `Promise.all` at install, and the deletes at activation, run as sequential loops. Each touches a different key or cache, so the final state is the same.
- Concurrency between requests handled at the same time (last write wins on a key).
- Failure of `caches.open` and of `caches.delete`. A rejected delete would make activation's `Promise.all` reject. The model treats deletions as always succeeding.
- `self.clients.claim()`, `event.waitUntil`, `event.respondWith` and `console.warn`. These are host interactions with no outcome to model beyond the phase completing.
- The effect of `skipWaiting` on the browser's install/activate state machine. It is recorded only as the flag `skipWaitingCalled`.
- `Response.clone()` and bodies. Responses are opaque immutable values.
- The contents of `index.html`, `offline.html` and the other assets.
