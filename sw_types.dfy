/** Values the service worker handles: requests, responses, network outcomes,
    the per-version cache contents and the worker's fixed configuration. */
module SwTypes {

  datatype Option<T> = None | Some(value: T)

  /** A cache key: the URL of a GET request, already resolved against the
      worker's location. An asset name such as "index.html" stands for the URL
      it resolves to. */
  type Key = string

  /** The name of one cache generation in the origin's cache storage. */
  type CacheName = string

  /** A response, treated as an opaque immutable value. */
  datatype Response = Response(status: int, statusText: string, body: string)

  /** What the network does with one fetch: it answers with a response (of any
      status, a 404 included) or the fetch rejects. */
  datatype FetchOutcome = Ok(resp: Response) | Fail

  /** The parts of a request the worker reads. `accept` is None when the
      request has no accept header; `pathname` is the path of its URL. */
  datatype Request = Request(verb: string, url: Key, mode: string, accept: Option<string>, pathname: string)

  /** One cache generation: a map from request key to stored response. */
  type Cache = map<Key, Response>

  /** The version tag that names the current generation. */
  const CACHE: CacheName := "fpl-v5-3-4"

  const INDEX: Key := "index.html"
  const OFFLINE: Key := "offline.html"

  /** The assets precached at install, in declaration order. */
  const ASSETS: seq<Key> := [INDEX, "app.js", "manifest.json", "icon-192.png", "icon-512.png", "Parts.csv", OFFLINE]

  /** The synthetic last-resort answer. */
  const OFFLINE_RESPONSE: Response := Response(503, "Offline", "Offline")

  function Lookup(cache: Cache, key: Key): Option<Response>
  {
    if key in cache then Some(cache[key]) else None
  }

  /** The current generation's contents, or the empty cache when it does not exist yet. */
  function CurrentOf(storage: map<CacheName, Cache>): Cache
  {
    if CACHE in storage then storage[CACHE] else map[]
  }

  /** The storage after `caches.open(name)`: the named cache exists, and is
      created empty when it did not. */
  function Opened(storage: map<CacheName, Cache>, name: CacheName): (r: map<CacheName, Cache>)
    ensures r.Keys == storage.Keys + {name}
    ensures name in r && (name in storage ==> r == storage)
    ensures name !in storage ==> r[name] == map[] && forall n :: n in storage ==> r[n] == storage[n]
  {
    if name in storage then storage else storage[name := map[]]
  }

  predicate Distinct<T(==)>(s: seq<T>)
  {
    forall i, j :: 0 <= i < j < |s| ==> s[i] != s[j]
  }

  lemma AssetsDistinct()
    ensures Distinct(ASSETS)
  {
  }
}
