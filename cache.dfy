/** The response cache (services/cache.js): a module-level Map from key to
    a value and the time it was stored, whose entries expire five minutes
    after they were stored. `Date.now()` is the explicit `now` parameter, in
    milliseconds; keys are strings, which a Map compares by value. */
module Cache {
  import opened Js

  /** 5 * 60 * 1000 ms. */
  const CACHE_EXPIRY: int := 300000

  datatype Entry<V> = Entry(value: V, timestamp: int)

  /** An entry is stale once strictly more than CACHE_EXPIRY ms have passed
      since it was stored; at exactly CACHE_EXPIRY it is still served. */
  predicate Expired(timestamp: int, now: int)
  {
    now - timestamp > CACHE_EXPIRY
  }

  /** What getCachedResponse returns (None for `null`) and the map it
      leaves. */
  datatype Lookup<V> = Lookup(value: Option<V>, entries: map<string, Entry<V>>)

  /** getCachedResponse: a missing key gives null; a stale entry is deleted
      and gives null; a fresh one gives its value. */
  function Get<V>(entries: map<string, Entry<V>>, key: string, now: int): (r: Lookup<V>)
    ensures key !in entries ==> r == Lookup(None, entries)
    ensures key in entries && Expired(entries[key].timestamp, now) ==>
      r.value.None? && r.entries.Keys == entries.Keys - {key}
    ensures key in entries && !Expired(entries[key].timestamp, now) ==>
      r == Lookup(Some(entries[key].value), entries)
    ensures forall k :: k != key ==> (k in r.entries <==> k in entries)
    ensures forall k :: k != key && k in r.entries ==> r.entries[k] == entries[k]
  {
    if key !in entries then Lookup(None, entries)
    else if Expired(entries[key].timestamp, now) then Lookup(None, entries - {key})
    else Lookup(Some(entries[key].value), entries)
  }

  /** setCachedResponse: store the value under the key, stamped with now,
      replacing any earlier entry. */
  function Set<V>(entries: map<string, Entry<V>>, key: string, value: V, now: int): (m: map<string, Entry<V>>)
    ensures m.Keys == entries.Keys + {key}
    ensures m[key] == Entry(value, now)
    ensures forall k :: k != key && k in entries ==> m[k] == entries[k]
  {
    entries[key := Entry(value, now)]
  }

  /** A value just stored is served for CACHE_EXPIRY ms, the last
      millisecond included, and the lookup leaves the map as it was. */
  lemma SetThenGetFresh<V>(entries: map<string, Entry<V>>, key: string, value: V, stored: int, now: int)
    requires now - stored <= CACHE_EXPIRY
    ensures Get(Set(entries, key, value, stored), key, now) ==
            Lookup(Some(value), Set(entries, key, value, stored))
  {
  }

  /** After that the lookup gives null and removes the key, and nothing
      else. */
  lemma SetThenGetStale<V>(entries: map<string, Entry<V>>, key: string, value: V, stored: int, now: int)
    requires now - stored > CACHE_EXPIRY
    ensures Get(Set(entries, key, value, stored), key, now) == Lookup(None, entries - {key})
  {
    assert Set(entries, key, value, stored) - {key} == entries - {key};
  }

  /** The boundary: an entry is served exactly CACHE_EXPIRY ms after it was
      stored and not one millisecond later. */
  lemma ExpiryBoundary<V>(entries: map<string, Entry<V>>, key: string, value: V, stored: int)
    ensures Get(Set(entries, key, value, stored), key, stored + CACHE_EXPIRY).value == Some(value)
    ensures Get(Set(entries, key, value, stored), key, stored + CACHE_EXPIRY + 1).value == None
    ensures key !in Get(Set(entries, key, value, stored), key, stored + CACHE_EXPIRY + 1).entries
  {
    SetThenGetFresh(entries, key, value, stored, stored + CACHE_EXPIRY);
    SetThenGetStale(entries, key, value, stored, stored + CACHE_EXPIRY + 1);
  }

  /** Asking twice at the same time gives the same answer and the same
      map: a stale entry is gone after the first lookup. */
  lemma GetIsIdempotent<V>(entries: map<string, Entry<V>>, key: string, now: int)
    ensures Get(Get(entries, key, now).entries, key, now) == Get(entries, key, now)
  {
  }

  /** A second set of the same key replaces the first one entirely. */
  lemma SetOverwrites<V>(entries: map<string, Entry<V>>, key: string, first: V, t1: int, second: V, t2: int)
    ensures Set(Set(entries, key, first, t1), key, second, t2) == Set(entries, key, second, t2)
  {
  }

  /** Storing under one key does not change what another key gives. */
  lemma SetLeavesOtherKeys<V>(entries: map<string, Entry<V>>, key: string, value: V, stored: int, other: string, now: int)
    requires other != key
    ensures Get(Set(entries, key, value, stored), other, now).value == Get(entries, other, now).value
  {
  }

  /** The module-level `cache` Map. */
  class ResponseCache<V> {
    var entries: map<string, Entry<V>>

    constructor ()
      ensures entries == map[]
    {
      entries := map[];
    }

    method GetCachedResponse(key: string, now: int) returns (value: Option<V>)
      modifies this
      ensures Lookup(value, entries) == Get(old(entries), key, now)
    {
      if key !in entries {
        return None;
      }
      var entry := entries[key];
      if now - entry.timestamp > CACHE_EXPIRY {
        entries := entries - {key};
        return None;
      }
      return Some(entry.value);
    }

    method SetCachedResponse(key: string, value: V, now: int)
      modifies this
      ensures entries == Set(old(entries), key, value, now)
    {
      entries := entries[key := Entry(value, now)];
    }
  }
}
