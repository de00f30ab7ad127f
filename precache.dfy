/** What the install handler's precache does to the current cache
    (sw.js lines 16-25): one `cache.add` per asset, each failure tolerated on
    its own. */
module Precache {
  import opened SwTypes

  /** `cache.add` stores an asset only when the fetch answered with an ok
      status (200-299) that is not a 206 partial response, and the store
      accepts the write. Every other case rejects and is caught. */
  predicate Added(reply: FetchOutcome, accepted: bool)
    ensures Added(reply, accepted) ==> accepted && reply.Ok?
    ensures reply.Ok? && (reply.resp.status < 200 || 299 < reply.resp.status) ==> !Added(reply, accepted)
    ensures reply.Ok? && reply.resp.status == 206 ==> !Added(reply, accepted)
    ensures reply.Ok? && reply.resp.status == 200 && accepted ==> Added(reply, accepted)
  {
    reply.Ok? && 200 <= reply.resp.status <= 299 && reply.resp.status != 206 && accepted
  }

  /** One `cache.add(key)`, with a failure caught and ignored: only the
      asset's own entry can change, and only to the fetched response. */
  function AddAsset(cache: Cache, key: Key, reply: FetchOutcome, accepted: bool): (r: Cache)
    ensures Lookup(r, key) == if Added(reply, accepted) then Some(reply.resp) else Lookup(cache, key)
    ensures forall k :: k != key ==> Lookup(r, k) == Lookup(cache, k)
  {
    if Added(reply, accepted) then cache[key := reply.resp] else cache
  }

  /** The cache after adding every asset in order; `replies[i]` and
      `accepted[i]` are what the network and the store did for `assets[i]`. */
  function Precached(cache: Cache, assets: seq<Key>, replies: seq<FetchOutcome>, accepted: seq<bool>): (r: Cache)
    requires |replies| == |assets| && |accepted| == |assets|
    ensures r.Keys == cache.Keys + set i | 0 <= i < |assets| && Added(replies[i], accepted[i]) :: assets[i]
    decreases |assets|
  {
    if |assets| == 0 then cache
    else
      var n := |assets| - 1;
      var before := Precached(cache, assets[..n], replies[..n], accepted[..n]);
      assert forall i :: 0 <= i < n ==> assets[..n][i] == assets[i] && replies[..n][i] == replies[i] && accepted[..n][i] == accepted[i];
      AddAsset(before, assets[n], replies[n], accepted[n])
  }

  /** Each asset's entry depends only on its own fetch: a successful add
      stores the response, a failed one leaves the earlier entry (if any).
      So one asset's failure never keeps another from being stored, and the
      order in which the adds complete does not matter. */
  lemma {:induction false} PrecachedAt(cache: Cache, assets: seq<Key>, replies: seq<FetchOutcome>, accepted: seq<bool>, i: int)
    requires |replies| == |assets| && |accepted| == |assets| && Distinct(assets)
    requires 0 <= i < |assets|
    ensures Lookup(Precached(cache, assets, replies, accepted), assets[i]) ==
      if Added(replies[i], accepted[i]) then Some(replies[i].resp) else Lookup(cache, assets[i])
    decreases |assets|
  {
    var n := |assets| - 1;
    assert Distinct(assets[..n]);
    if i < n {
      assert assets[..n][i] == assets[i] && replies[..n][i] == replies[i] && accepted[..n][i] == accepted[i];
      assert assets[n] != assets[i];
      PrecachedAt(cache, assets[..n], replies[..n], accepted[..n], i);
    } else {
      assert assets[n] !in assets[..n];
      PrecachedElsewhere(cache, assets[..n], replies[..n], accepted[..n], assets[n]);
    }
  }

  /** Keys that are not assets keep their entries. */
  lemma {:induction false} PrecachedElsewhere(cache: Cache, assets: seq<Key>, replies: seq<FetchOutcome>, accepted: seq<bool>, k: Key)
    requires |replies| == |assets| && |accepted| == |assets|
    requires k !in assets
    ensures Lookup(Precached(cache, assets, replies, accepted), k) == Lookup(cache, k)
    decreases |assets|
  {
    if |assets| > 0 {
      var n := |assets| - 1;
      assert k !in assets[..n];
      PrecachedElsewhere(cache, assets[..n], replies[..n], accepted[..n], k);
    }
  }

  /** Precaching twice leaves one entry per asset, holding the later run's
      response where its add succeeded and the earlier run's otherwise. */
  lemma PrecachedTwice(cache: Cache, assets: seq<Key>, replies1: seq<FetchOutcome>, accepted1: seq<bool>,
                       replies2: seq<FetchOutcome>, accepted2: seq<bool>, i: int)
    requires |replies1| == |assets| && |accepted1| == |assets| && |replies2| == |assets| && |accepted2| == |assets|
    requires Distinct(assets) && 0 <= i < |assets|
    ensures Lookup(Precached(Precached(cache, assets, replies1, accepted1), assets, replies2, accepted2), assets[i]) ==
      if Added(replies2[i], accepted2[i]) then Some(replies2[i].resp)
      else if Added(replies1[i], accepted1[i]) then Some(replies1[i].resp)
      else Lookup(cache, assets[i])
  {
    PrecachedAt(cache, assets, replies1, accepted1, i);
    PrecachedAt(Precached(cache, assets, replies1, accepted1), assets, replies2, accepted2, i);
  }

  /** Repeating a precache with the same outcomes changes nothing. */
  lemma {:induction false} PrecacheIdempotent(cache: Cache, assets: seq<Key>, replies: seq<FetchOutcome>, accepted: seq<bool>)
    requires |replies| == |assets| && |accepted| == |assets| && Distinct(assets)
    ensures Precached(Precached(cache, assets, replies, accepted), assets, replies, accepted) ==
            Precached(cache, assets, replies, accepted)
  {
    var once := Precached(cache, assets, replies, accepted);
    var twice := Precached(once, assets, replies, accepted);
    forall k
      ensures Lookup(twice, k) == Lookup(once, k)
    {
      if k in assets {
        var i :| 0 <= i < |assets| && assets[i] == k;
        PrecachedTwice(cache, assets, replies, accepted, replies, accepted, i);
        PrecachedAt(cache, assets, replies, accepted, i);
      } else {
        PrecachedElsewhere(once, assets, replies, accepted, k);
      }
    }
    forall k | k in twice
      ensures twice[k] == once[k]
    {
      assert Lookup(twice, k) == Lookup(once, k);
    }
  }
}
