/** The gateway's idempotency cache: it agrees with the log of what was stored. */
module Idempotency {
  import opened Wrappers

  /** A response; `None` is a handler's empty result, which the cache cannot tell from a
      miss. */
  type Payload = Option<string>

  datatype Entry = Entry(time: int, response: Payload)

  datatype Stored = Stored(key: string, entry: Entry)

  // ----- the cache operations

  predicate Live(e: Entry, now: int, ttl: int) {
    now - e.time < ttl
  }

  function CacheGet(cache: map<string, Entry>, key: string, now: int, ttl: int): Payload {
    if key in cache && Live(cache[key], now, ttl) then cache[key].response else None
  }

  /** Looking up an expired entry removes it. */
  function AfterGet(cache: map<string, Entry>, key: string, now: int, ttl: int): map<string, Entry> {
    if key in cache && !Live(cache[key], now, ttl) then cache - {key} else cache
  }

  function Expired(cache: map<string, Entry>, now: int, ttl: int): set<string> {
    set k | k in cache && !Live(cache[k], now, ttl)
  }

  // ----- the log

  /** The latest entry stored under a key. */
  function Latest(log: seq<Stored>, key: string): Option<Entry> {
    if log == [] then None
    else if log[|log| - 1].key == key then Some(log[|log| - 1].entry)
    else Latest(log[..|log| - 1], key)
  }

  /** What the cache promises: the latest response stored within the time-to-live. */
  function Remembered(log: seq<Stored>, key: string, now: int, ttl: int): Payload {
    match Latest(log, key)
    case None => None
    case Some(e) => if Live(e, now, ttl) then e.response else None
  }

  /** The cache holds the latest entry of every key, unless that entry has expired. */
  ghost predicate Agrees(cache: map<string, Entry>, log: seq<Stored>, clock: int, ttl: int) {
    && (forall k :: k in cache ==> Latest(log, k) == Some(cache[k]))
    && (forall k :: k !in cache ==> Latest(log, k).None? || !Live(Latest(log, k).value, clock, ttl))
  }

  /** Time passes only forwards, so an expired entry stays expired. */
  lemma AgreesLater(cache: map<string, Entry>, log: seq<Stored>, clock: int, now: int, ttl: int)
    requires Agrees(cache, log, clock, ttl) && clock <= now
    ensures Agrees(cache, log, now, ttl)
    ensures forall k :: CacheGet(cache, k, now, ttl) == Remembered(log, k, now, ttl)
    ensures forall k :: Agrees(AfterGet(cache, k, now, ttl), log, now, ttl)
    ensures Agrees(cache - Expired(cache, now, ttl), log, now, ttl)
  {
  }

  lemma AgreesSet(cache: map<string, Entry>, log: seq<Stored>, clock: int, key: string, e: Entry, ttl: int)
    requires Agrees(cache, log, clock, ttl)
    ensures Agrees(cache[key := e], log + [Stored(key, e)], clock, ttl)
  {
    var log' := log + [Stored(key, e)];
    assert log'[..|log|] == log;
    assert forall k :: Latest(log', k) == if k == key then Some(e) else Latest(log, k);
  }

  class IdempotencyCache {
    const ttl: int
    var cache: map<string, Entry>
    ghost var log: seq<Stored>
    ghost var clock: int

    ghost predicate Valid()
      reads this
    {
      Agrees(cache, log, clock, ttl)
    }

    constructor (ttl: int)
      ensures Valid() && this.ttl == ttl && cache == map[] && log == []
    {
      this.ttl := ttl;
      cache, log, clock := map[], [], 0;
    }

    /** The state is observable only through `Get`, whose result depends on the log alone:
        neither a lookup's own deletion nor `Cleanup` can be noticed. */
    method Get(key: string, now: int) returns (response: Payload)
      requires Valid() && (log == [] || clock <= now)
      modifies this
      ensures Valid() && log == old(log) && clock == now
      ensures response == Remembered(log, key, now, ttl)
      ensures cache == AfterGet(old(cache), key, now, ttl)
    {
      NothingStored();
      AgreesLater(cache, log, if log == [] then now else clock, now, ttl);
      clock := now;
      if key in cache {
        if now - cache[key].time < ttl {
          return cache[key].response;
        }
        cache := cache - {key};
      }
      return None;
    }

    lemma NothingStored()
      requires Valid()
      ensures log == [] ==> forall now :: Agrees(cache, log, now, ttl)
    {
    }

    method Set(key: string, response: Payload, now: int)
      requires Valid() && (log == [] || clock <= now)
      modifies this
      ensures Valid() && log == old(log) + [Stored(key, Entry(now, response))] && clock == now
      ensures cache == old(cache)[key := Entry(now, response)]
    {
      NothingStored();
      AgreesLater(cache, log, if log == [] then now else clock, now, ttl);
      AgreesSet(cache, log, now, key, Entry(now, response), ttl);
      cache := cache[key := Entry(now, response)];
      log, clock := log + [Stored(key, Entry(now, response))], now;
    }

    method Cleanup(now: int) returns (removed: nat)
      requires Valid() && (log == [] || clock <= now)
      modifies this
      ensures Valid() && log == old(log) && clock == now
      ensures removed == |Expired(old(cache), now, ttl)|
      ensures cache == old(cache) - Expired(old(cache), now, ttl)
    {
      NothingStored();
      AgreesLater(cache, log, if log == [] then now else clock, now, ttl);
      var expired := set k | k in cache && now - cache[k].time >= ttl;
      assert expired == Expired(cache, now, ttl);
      cache := cache - expired;
      clock := now;
      return |expired|;
    }
  }
}
