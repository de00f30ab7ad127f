/** What activation leaves of the cache storage (sw.js lines 30-36) and
    which messages make the worker skip waiting (sw.js lines 88-93). */
module Lifecycle {
  import opened SwTypes

  /** The storage after every cache other than the current version is deleted. */
  function Retained(storage: map<CacheName, Cache>): (r: map<CacheName, Cache>)
    ensures forall n :: n in r ==> n == CACHE
    ensures CACHE in r <==> CACHE in storage
    ensures CACHE in r ==> r[CACHE] == storage[CACHE]
  {
    map n | n in storage && n == CACHE :: storage[n]
  }

  /** Activating twice deletes nothing more. */
  lemma RetainedIdempotent(storage: map<CacheName, Cache>)
    ensures Retained(Retained(storage)) == Retained(storage)
  {
  }

  /** The data of a message. `msgType` is its `type` property when that is a
      string, and None otherwise. */
  datatype MessageData = MessageData(msgType: Option<string>)

  /** A message asks to skip waiting when it has data whose type is
      exactly "SKIP_WAITING". A message whose data is absent, null or
      otherwise falsy is `None`. */
  predicate AsksToSkipWaiting(data: Option<MessageData>)
    ensures AsksToSkipWaiting(data) <==> data == Some(MessageData(Some("SKIP_WAITING")))
  {
    data.Some? && data.value.msgType == Some("SKIP_WAITING")
  }
}
