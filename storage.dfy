/** The origin's cache storage: named cache generations, each a map from
    request key to response, changed in place by the worker. */
module Storage {
  import opened SwTypes

  class CacheStorage {
    var caches: map<CacheName, Cache>

    constructor(initial: map<CacheName, Cache>)
      ensures caches == initial
    {
      caches := initial;
    }

    /** `caches.open(name)`: creates the named cache when it is missing. */
    method Open(name: CacheName)
      modifies this
      ensures caches == Opened(old(caches), name)
    {
      if name !in caches {
        caches := caches[name := map[]];
      }
    }

    /** `cache.match(key)` on the named cache: absence is a normal outcome. */
    method Match(name: CacheName, key: Key) returns (r: Option<Response>)
      requires name in caches
      ensures r.Some? <==> key in caches[name]
      ensures r.Some? ==> r.value == caches[name][key]
    {
      if key in caches[name] {
        r := Some(caches[name][key]);
      } else {
        r := None;
      }
    }

    /** `cache.put(key, resp)` on the named cache. `accepted` is whether the
        store takes the write; a refused write changes nothing. */
    method Put(name: CacheName, key: Key, resp: Response, accepted: bool)
      requires name in caches
      modifies this
      ensures accepted ==> caches == old(caches)[name := old(caches)[name][key := resp]]
      ensures !accepted ==> caches == old(caches)
    {
      if accepted {
        caches := caches[name := caches[name][key := resp]];
      }
    }

    /** `caches.keys()`. */
    method Keys() returns (names: set<CacheName>)
      ensures names == caches.Keys
    {
      names := caches.Keys;
    }

    /** `caches.delete(name)`: reports whether the cache existed. */
    method Delete(name: CacheName) returns (existed: bool)
      modifies this
      ensures existed <==> name in old(caches)
      ensures caches == old(caches) - {name}
    {
      existed := name in caches;
      caches := caches - {name};
    }
  }
}
