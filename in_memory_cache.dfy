/** The in-memory stand-in for Redis: a key-value store with per-key expiry
    times, evicted lazily when an expired key is read. The clock is passed
    in as `now` (milliseconds). */
module Cache {
  import opened Common

  /** A stored value and its expiry time; None, like a stored 0, means the
      entry never expires. */
  datatype Entry = Entry(value: string, expireAt: Option<int>)

  /** The entry has an expiry time set (a truthy one: not absent, not 0). */
  predicate HasExpiry(e: Entry) {
    e.expireAt.Some? && e.expireAt.value != 0
  }

  /** The entry is expired at `now`: it has an expiry time no later than now. */
  predicate Expired(e: Entry, now: int) {
    HasExpiry(e) && e.expireAt.value <= now
  }

  /** What `get` returns: the value of a present entry that has not expired. */
  function Lookup(store: map<string, Entry>, key: string, now: int): (r: Option<string>)
    ensures r.Some? <==> key in store && !Expired(store[key], now)
    ensures r.Some? ==> r.value == store[key].value
  {
    if key in store && !Expired(store[key], now) then Some(store[key].value) else None
  }

  /** The store after `get`: an expired entry read is removed, nothing else
      changes. */
  function AfterGet(store: map<string, Entry>, key: string, now: int): (s: map<string, Entry>)
    ensures key in store && Expired(store[key], now) ==> s == store - {key}
    ensures !(key in store && Expired(store[key], now)) ==> s == store
  {
    if key in store && Expired(store[key], now) then store - {key} else store
  }

  /** The store after `set`: the new value, keeping the entry's expiry time
      if it had one (a falsy one becomes none). */
  function AfterSet(store: map<string, Entry>, key: string, value: string): (s: map<string, Entry>)
    ensures s.Keys == store.Keys + {key}
    ensures s[key].value == value
    ensures key in store && HasExpiry(store[key]) ==> s[key].expireAt == store[key].expireAt
    ensures !(key in store && HasExpiry(store[key])) ==> s[key].expireAt.None?
    ensures forall k :: k in store && k != key ==> s[k] == store[k]
  {
    var keep := key in store && HasExpiry(store[key]);
    store[key := Entry(value, if keep then store[key].expireAt else None)]
  }

  /** The store after `expire` on a present key: the expiry time moved to
      `seconds` from now, whether or not the entry had already expired. */
  function AfterExpire(store: map<string, Entry>, key: string, seconds: int, now: int): (s: map<string, Entry>)
    requires key in store
    ensures s.Keys == store.Keys
    ensures s[key] == Entry(store[key].value, Some(now + seconds * 1000))
    ensures forall k :: k in store && k != key ==> s[k] == store[k]
  {
    store[key := store[key].(expireAt := Some(now + seconds * 1000))]
  }

  class InMemoryCache {
    var store: map<string, Entry>

    constructor()
      ensures store == map[]
    {
      store := map[];
    }

    /** `get`: the live value, or None; an expired entry is evicted. */
    method Get(key: string, now: int) returns (r: Option<string>)
      modifies this
      ensures r == Lookup(old(store), key, now)
      ensures store == AfterGet(old(store), key, now)
    {
      if key !in store {
        return None;
      }
      var entry := store[key];
      if HasExpiry(entry) && entry.expireAt.value <= now {
        store := store - {key};
        return None;
      }
      return Some(entry.value);
    }

    /** `set`: stores the value, keeping any expiry time, and replies "OK". */
    method Set(key: string, value: string) returns (reply: string)
      modifies this
      ensures reply == "OK"
      ensures store == AfterSet(old(store), key, value)
    {
      var current := if key in store then Some(store[key]) else None;
      var expireAt := if current.Some? && HasExpiry(current.value) then current.value.expireAt else None;
      store := store[key := Entry(value, expireAt)];
      reply := "OK";
    }

    /** `expire`: 0 for a missing key, which changes nothing; otherwise sets
      the expiry time to `seconds` from now and replies 1. */
    method Expire(key: string, seconds: int, now: int) returns (n: int)
      modifies this
      ensures key !in old(store) ==> n == 0 && store == old(store)
      ensures key in old(store) ==> n == 1 && store == AfterExpire(old(store), key, seconds, now)
    {
      if key !in store {
        return 0;
      }
      var entry := store[key];
      entry := entry.(expireAt := Some(now + seconds * 1000));
      store := store[key := entry];
      return 1;
    }

    /** `del`: removes the key; 1 exactly when it was present. */
    method Del(key: string) returns (n: int)
      modifies this
      ensures n == (if key in old(store) then 1 else 0)
      ensures store == old(store) - {key}
    {
      n := if key in store then 1 else 0;
      store := store - {key};
    }
  }

  /** A value just set is read back, unless the key kept an expiry time that
      has already passed. */
  lemma SetThenGet(store: map<string, Entry>, key: string, value: string, now: int)
    requires !(key in store && Expired(store[key], now))
    ensures Lookup(AfterSet(store, key, value), key, now) == Some(value)
  {
  }

  /** Setting a key leaves every other key's reading unchanged. */
  lemma SetLeavesOtherKeys(store: map<string, Entry>, key: string, value: string, other: string, now: int)
    requires other != key
    ensures Lookup(AfterSet(store, key, value), other, now) == Lookup(store, other, now)
  {
  }

  /** `set` keeps an expiry time even when it has passed: the value is not
      readable afterwards. */
  lemma SetKeepsPassedExpiry(store: map<string, Entry>, key: string, value: string, now: int)
    requires key in store && Expired(store[key], now)
    ensures Lookup(AfterSet(store, key, value), key, now) == None
  {
  }

  /** A deleted key reads as absent. */
  lemma DelThenGet(store: map<string, Entry>, key: string, now: int)
    ensures Lookup(store - {key}, key, now) == None
  {
  }

  /** `expire` with a positive time revives an expired entry not yet
      evicted: its value reads again until the new expiry time. */
  lemma ExpireRevives(store: map<string, Entry>, key: string, seconds: int, now: int, later: int)
    requires key in store && seconds > 0
    requires now <= later < now + seconds * 1000
    ensures Lookup(AfterExpire(store, key, seconds, now), key, later) == Some(store[key].value)
  {
  }

  /** Once the expiry time of `expire` is reached, the key reads as absent. */
  lemma ExpireThenTimeout(store: map<string, Entry>, key: string, seconds: int, now: int, later: int)
    requires key in store && now + seconds * 1000 != 0
    requires now + seconds * 1000 <= later
    ensures Lookup(AfterExpire(store, key, seconds, now), key, later) == None
  {
  }

  /** Eviction is never observable: after a `get` every key reads as before,
      at that time and any later time. */
  lemma EvictionUnobservable(store: map<string, Entry>, key: string, now: int, other: string, later: int)
    requires now <= later
    ensures Lookup(AfterGet(store, key, now), other, later) == Lookup(store, other, later)
  {
  }
}
