/** GingerTemplate.Core.Services.CachingService: a key-to-item store whose
    entries may carry an absolute expiry. Times are clock readings (ticks)
    passed in as `now`; durations are differences of readings. */
module Caching {
  import opened Base

  /** A stored item with its expiry, `None` when it never expires. */
  datatype Entry<V> = Entry(item: V, expiration: Option<int>)

  /** An entry is live until its expiry: at the expiry instant it has expired. */
  predicate IsLive<V>(e: Entry<V>, now: int) {
    e.expiration.None? || e.expiration.value > now
  }

  /** The item a lookup at time `now` finds, `None` for the default value. */
  function Find<V>(cache: map<string, Entry<V>>, key: string, now: int): Option<V> {
    if key in cache && IsLive(cache[key], now) then Some(cache[key].item) else None
  }

  /** The expiry stored for a relative expiration given at time `now`. */
  function ExpiryFor(now: int, expiration: Option<int>): (r: Option<int>)
    ensures r.Some? <==> expiration.Some?
    ensures r.Some? ==> r.value - now == expiration.value
  {
    if expiration.Some? then Some(now + expiration.value) else None
  }

  /** The map left after a lookup at `now`: an expired entry for `key` is evicted. */
  function Evicted<V>(cache: map<string, Entry<V>>, key: string, now: int): map<string, Entry<V>> {
    if key in cache && !IsLive(cache[key], now) then cache - {key} else cache
  }

  const LockRecursionError := Error(LockRecursion, "Write lock may not be acquired with read lock held.")

  /** `GetItem` as written: the expired branch calls `RemoveItem`, which asks
      for the write lock while the read lock is held; `ReaderWriterLockSlim`
      refuses that, so the call throws instead of returning the default. */
  function GetItemAsWritten<V>(cache: map<string, Entry<V>>, key: string, now: int): (r: Result<Option<V>>)
    ensures r.Err? <==> key in cache && !IsLive(cache[key], now)
    ensures r.Ok? ==> r.value == Find(cache, key, now)
  {
    if key in cache then
      if IsLive(cache[key], now) then Ok(Some(cache[key].item)) else Err(LockRecursionError)
    else Ok(None)
  }

  /** `ContainsItem` as written, with the same nested lock request. */
  function ContainsItemAsWritten<V>(cache: map<string, Entry<V>>, key: string, now: int): (r: Result<bool>)
    ensures r.Err? <==> key in cache && !IsLive(cache[key], now)
    ensures r.Ok? ==> r.value == Find(cache, key, now).Some?
  {
    if key in cache then
      if IsLive(cache[key], now) then Ok(true) else Err(LockRecursionError)
    else Ok(false)
  }

  /** An item set with an expiration of 5 is looked up exactly at its expiry:
      the code as written throws rather than reporting a miss. */
  lemma ExpiredLookupThrowsAsWritten()
    ensures GetItemAsWritten(map["token" := Entry(7, ExpiryFor(0, Some(5)))], "token", 5).Err?
    ensures ContainsItemAsWritten(map["token" := Entry(7, ExpiryFor(0, Some(5)))], "token", 5).Err?
  {
  }

  class CachingService<V> {
    var cache: map<string, Entry<V>>

    constructor ()
      ensures cache == map[]
    {
      cache := map[];
    }

    /** `GetItem`, with the eviction the expired branch intends. */
    method GetItem(key: string, now: int) returns (item: Option<V>)
      modifies this
      ensures item == Find(old(cache), key, now)
      ensures cache == Evicted(old(cache), key, now)
    {
      if key in cache {
        var entry := cache[key];
        if IsLive(entry, now) {
          return Some(entry.item);
        } else {
          RemoveItem(key);
        }
      }
      return None;
    }

    /** `SetItem`: stores the item under `key`, replacing any earlier entry. */
    method SetItem(key: string, item: V, expiration: Option<int>, now: int)
      modifies this
      ensures cache == old(cache)[key := Entry(item, ExpiryFor(now, expiration))]
    {
      cache := cache[key := Entry(item, ExpiryFor(now, expiration))];
    }

    /** `RemoveItem`: a no-op for an absent key. */
    method RemoveItem(key: string)
      modifies this
      ensures cache == old(cache) - {key}
    {
      if key in cache {
        cache := cache - {key};
      }
    }

    /** `ContainsItem`, with the eviction the expired branch intends. */
    method ContainsItem(key: string, now: int) returns (present: bool)
      modifies this
      ensures present <==> Find(old(cache), key, now).Some?
      ensures cache == Evicted(old(cache), key, now)
    {
      if key in cache {
        var entry := cache[key];
        if IsLive(entry, now) {
          return true;
        } else {
          RemoveItem(key);
        }
      }
      return false;
    }
  }

  /** After `SetItem(key, item, expiration)` at time `setAt`, a lookup of `key`
      at `now` finds `item` exactly while the new expiry lies ahead. */
  lemma FindAfterSet<V>(cache: map<string, Entry<V>>, key: string, item: V, expiration: Option<int>, setAt: int, now: int)
    ensures var c := cache[key := Entry(item, ExpiryFor(setAt, expiration))];
      Find(c, key, now) == if expiration.None? || setAt + expiration.value > now then Some(item) else None
  {
  }

  /** Setting or removing one key leaves every other key's lookup alone. */
  lemma OtherKeysUnaffected<V>(cache: map<string, Entry<V>>, key: string, other: string, e: Entry<V>, now: int)
    requires other != key
    ensures Find(cache[key := e], other, now) == Find(cache, other, now)
    ensures Find(cache - {key}, other, now) == Find(cache, other, now)
    ensures Find(Evicted(cache, key, now), other, now) == Find(cache, other, now)
  {
  }

  /** Eviction changes no lookup: what was found is still found. */
  lemma EvictionInvisible<V>(cache: map<string, Entry<V>>, key: string, now: int, other: string)
    ensures Find(Evicted(cache, key, now), other, now) == Find(cache, other, now)
  {
  }

  /** An entry without expiry is found at every time. */
  lemma NoExpiryAlwaysFound<V>(cache: map<string, Entry<V>>, key: string, now: int)
    requires key in cache && cache[key].expiration.None?
    ensures Find(cache, key, now) == Some(cache[key].item)
  {
  }

  /** An entry whose expiry is at or before `now` is never found. */
  lemma ExpiredNeverFound<V>(cache: map<string, Entry<V>>, key: string, now: int)
    requires key in cache && cache[key].expiration.Some? && cache[key].expiration.value <= now
    ensures Find(cache, key, now) == None
  {
  }

  /** After removal nothing is found under the key. */
  lemma FindAfterRemove<V>(cache: map<string, Entry<V>>, key: string, now: int)
    ensures Find(cache - {key}, key, now) == None
  {
  }
}
