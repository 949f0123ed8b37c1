/**
 * The in-memory cache with a time-to-live per entry and least-recently-used
 * eviction once `maxSize` entries are stored. A JavaScript `Map` iterates in
 * insertion order, which decides the eviction victim among equally old
 * entries, so the model keeps that order beside the entries.
 * The clock (`Date.now()`) is the parameter `now`.
 */
module Cache {
  import opened JsText

  datatype CacheEntry<T> = CacheEntry(value: T, createdAt: int, lastAccessed: int, ttl: int)

  datatype CacheConfig = CacheConfig(maxSize: int, defaultTtl: int, cleanupInterval: int)

  /** Search results: 1000 entries, 30 minutes, swept every 5 minutes. */
  const NdlSearchCacheConfig := CacheConfig(1000, 30 * 60 * 1000, 5 * 60 * 1000)

  /** Generated queries: 500 entries, one hour, swept every 10 minutes. */
  const LlmCacheConfig := CacheConfig(500, 60 * 60 * 1000, 10 * 60 * 1000)

  predicate Distinct(s: seq<string>) {
    forall i, j :: 0 <= i < j < |s| ==> s[i] != s[j]
  }

  /** An entry older than its time-to-live. */
  predicate Expired<T>(e: CacheEntry<T>, now: int) {
    now - e.createdAt > e.ttl
  }

  /** `ttl || defaultTtl`: an omitted or zero time-to-live takes the default. */
  function EntryTtl(config: CacheConfig, ttl: Option<int>): int {
    if ttl.Some? && ttl.value != 0 then ttl.value else config.defaultTtl
  }

  /** `order` without `k`. */
  function Without(order: seq<string>, k: string): (r: seq<string>)
    ensures forall x :: x in r <==> x in order && x != k
    ensures Distinct(order) ==> Distinct(r)
    ensures k !in order ==> r == order
    decreases |order|
  {
    if |order| == 0 then []
    else
      var rest := Without(order[..|order| - 1], k);
      var last := order[|order| - 1];
      assert order == order[..|order| - 1] + [last];
      assert Distinct(order) ==> last !in order[..|order| - 1];
      if last == k then rest else rest + [last]
  }

  /** The entries and their insertion order agree. */
  ghost predicate Coherent<T>(entries: map<string, CacheEntry<T>>, order: seq<string>) {
    Distinct(order) && forall k :: k in entries <==> k in order
  }

  /** Deleting a key from the entries and from the order keeps them coherent. */
  lemma CoherentRemove<T>(entries: map<string, CacheEntry<T>>, order: seq<string>, key: string)
    requires Coherent(entries, order)
    ensures Coherent(entries - {key}, Without(order, key))
  {
  }

  /** Storing under a key, appended to the order when it is new, keeps them coherent. */
  lemma CoherentStore<T>(entries: map<string, CacheEntry<T>>, order: seq<string>, key: string, e: CacheEntry<T>)
    requires Coherent(entries, order)
    ensures key in entries ==> Coherent(entries[key := e], order)
    ensures key !in entries ==> Coherent(entries[key := e], order + [key])
  {
  }

  // ---------------------------------------------------------------------
  // The eviction victim

  /** The time the eviction scan compares with after choosing `best`. */
  function BestTime<T>(entries: map<string, CacheEntry<T>>, order: seq<string>, now: int, best: Option<nat>): int
    requires Coherent(entries, order)
    requires best.Some? ==> best.value < |order|
  {
    if best.None? then now else entries[order[best.value]].lastAccessed
  }

  /**
   * The entry `evictLRU` picks after scanning the first `n` keys: the first
   * in insertion order among those least recently accessed, when that access
   * lies strictly before `now`.
   */
  function VictimUpTo<T>(entries: map<string, CacheEntry<T>>, order: seq<string>, now: int, n: nat): (v: Option<nat>)
    requires Coherent(entries, order) && n <= |order|
    ensures v.Some? ==> v.value < n
  {
    if n == 0 then None
    else
      var v := VictimUpTo(entries, order, now, n - 1);
      if entries[order[n - 1]].lastAccessed < BestTime(entries, order, now, v) then Some(n - 1) else v
  }

  /**
   * The scan's choice is accessed strictly before `now`, no later than any
   * scanned entry and strictly earlier than every entry scanned before it;
   * without a choice, every scanned entry was accessed at `now` or later.
   */
  lemma {:induction false} VictimUpToLeast<T>(entries: map<string, CacheEntry<T>>, order: seq<string>, now: int, n: nat)
    requires Coherent(entries, order) && n <= |order|
    ensures var v := VictimUpTo(entries, order, now, n);
      (v.Some? ==>
        entries[order[v.value]].lastAccessed < now
        && (forall j :: 0 <= j < n ==> entries[order[j]].lastAccessed >= entries[order[v.value]].lastAccessed)
        && (forall j :: 0 <= j < v.value ==> entries[order[j]].lastAccessed > entries[order[v.value]].lastAccessed))
      && (v.None? ==> forall j :: 0 <= j < n ==> entries[order[j]].lastAccessed >= now)
  {
    if n > 0 {
      VictimUpToLeast(entries, order, now, n - 1);
    }
  }

  function Victim<T>(entries: map<string, CacheEntry<T>>, order: seq<string>, now: int): Option<nat>
    requires Coherent(entries, order)
  {
    VictimUpTo(entries, order, now, |order|)
  }

  /** The key `evictLRU` deletes: the victim, unless there is none or its key is `""`. */
  function EvictedKey<T>(entries: map<string, CacheEntry<T>>, order: seq<string>, now: int): Option<string>
    requires Coherent(entries, order)
  {
    var v := Victim(entries, order, now);
    if v.Some? && order[v.value] != "" then Some(order[v.value]) else None
  }

  // ---------------------------------------------------------------------
  // The cache as values

  /** What `get(key)` answers. */
  function Lookup<T>(entries: map<string, CacheEntry<T>>, key: string, now: int): Option<T> {
    if key !in entries || Expired(entries[key], now) then None else Some(entries[key].value)
  }

  /** The entries after `get(key)`: an expired entry is dropped, a live one touched. */
  function EntriesAfterGet<T>(entries: map<string, CacheEntry<T>>, key: string, now: int): map<string, CacheEntry<T>> {
    if key !in entries then entries
    else if Expired(entries[key], now) then entries - {key}
    else entries[key := entries[key].(lastAccessed := now)]
  }

  /** The insertion order after `get(key)`: an expired key leaves it. */
  function OrderAfterGet<T>(entries: map<string, CacheEntry<T>>, order: seq<string>, key: string, now: int): seq<string> {
    if key in entries && Expired(entries[key], now) then Without(order, key) else order
  }

  /** The entries after `set(key, value, ttl)`. */
  function EntriesAfterSet<T>(config: CacheConfig, entries: map<string, CacheEntry<T>>, order: seq<string>,
                              key: string, value: T, ttl: Option<int>, now: int): map<string, CacheEntry<T>>
    requires Coherent(entries, order)
  {
    var kept :=
      if |entries| >= config.maxSize && key !in entries && EvictedKey(entries, order, now).Some?
      then entries - {EvictedKey(entries, order, now).value}
      else entries;
    kept[key := CacheEntry(value, now, now, EntryTtl(config, ttl))]
  }

  /**
   * The insertion order after `set(key, value, ttl)`: unchanged for a key
   * already stored, otherwise the new key last, after the eviction a full
   * cache makes.
   */
  function OrderAfterSet<T>(config: CacheConfig, entries: map<string, CacheEntry<T>>, order: seq<string>,
                            key: string, now: int): seq<string>
    requires Coherent(entries, order)
  {
    if key in entries then order
    else if |entries| >= config.maxSize && EvictedKey(entries, order, now).Some? then
      Without(order, EvictedKey(entries, order, now).value) + [key]
    else order + [key]
  }

  /** The insertion order after `cleanup()`: the keys whose entries have not expired, in their order. */
  function LiveKeys<T>(entries: map<string, CacheEntry<T>>, order: seq<string>, now: int): seq<string>
    decreases |order|
  {
    if |order| == 0 then []
    else
      var k := order[|order| - 1];
      LiveKeys(entries, order[..|order| - 1], now) + (if k in entries && Expired(entries[k], now) then [] else [k])
  }

  /** A key stays in the order exactly when it was there and its entry has not expired. */
  lemma {:induction false} LiveKeysMembers<T>(entries: map<string, CacheEntry<T>>, order: seq<string>, now: int, k: string)
    ensures k in LiveKeys(entries, order, now) <==> k in order && !(k in entries && Expired(entries[k], now))
    decreases |order|
  {
    if |order| > 0 {
      LiveKeysMembers(entries, order[..|order| - 1], now, k);
      assert order == order[..|order| - 1] + [order[|order| - 1]];
    }
  }

  /** The entries after `cleanup()`: exactly the unexpired ones. */
  function EntriesAfterCleanup<T>(entries: map<string, CacheEntry<T>>, now: int): map<string, CacheEntry<T>> {
    map k | k in entries && !Expired(entries[k], now) :: entries[k]
  }

  class MemoryCache<T> {
    var entries: map<string, CacheEntry<T>>
    var order: seq<string>
    const config: CacheConfig

    ghost predicate Valid()
      reads this
    {
      Coherent(entries, order)
    }

    constructor (config: CacheConfig)
      ensures Valid()
      ensures this.config == config && entries == map[] && order == []
    {
      this.config := config;
      entries := map[];
      order := [];
    }

    /** The scan of `evictLRU`, without the deletion. */
    method FindVictim(now: int) returns (victim: Option<nat>)
      requires Valid()
      ensures victim == Victim(entries, order, now)
    {
      var oldestTime := now;
      victim := None;
      var i := 0;
      while i < |order|
        invariant 0 <= i <= |order|
        invariant victim == VictimUpTo(entries, order, now, i)
        invariant oldestTime == BestTime(entries, order, now, victim)
      {
        var e := entries[order[i]];
        if e.lastAccessed < oldestTime {
          oldestTime := e.lastAccessed;
          victim := Some(i);
        }
        i := i + 1;
      }
    }

    /** `evictLRU()`. */
    method EvictLru(now: int)
      requires Valid()
      modifies this
      ensures Valid()
      ensures var k := EvictedKey(old(entries), old(order), now);
        entries == (if k.Some? then old(entries) - {k.value} else old(entries))
        && order == (if k.Some? then Without(old(order), k.value) else old(order))
    {
      var victim := FindVictim(now);
      if victim.Some? && order[victim.value] != "" {
        var k := order[victim.value];
        CoherentRemove(entries, order, k);
        entries := entries - {k};
        order := Without(order, k);
      }
    }

    /** `set(key, value, ttl)`; `None` stands for an omitted `ttl`. */
    method Set(key: string, value: T, ttl: Option<int>, now: int)
      requires Valid()
      modifies this
      ensures Valid()
      ensures entries == EntriesAfterSet(config, old(entries), old(order), key, value, ttl, now)
      ensures order == OrderAfterSet(config, old(entries), old(order), key, now)
    {
      var e := CacheEntry(value, now, now, EntryTtl(config, ttl));
      if key in entries {
        CoherentStore(entries, order, key, e);
        entries := entries[key := e];
      } else {
        if |entries| >= config.maxSize {
          EvictLru(now);
        }
        CoherentStore(entries, order, key, e);
        order := order + [key];
        entries := entries[key := e];
      }
    }

    /** `get(key)`: `None` stands for `undefined`. */
    method Get(key: string, now: int) returns (r: Option<T>)
      requires Valid()
      modifies this
      ensures Valid()
      ensures r == Lookup(old(entries), key, now)
      ensures entries == EntriesAfterGet(old(entries), key, now)
      ensures order == OrderAfterGet(old(entries), old(order), key, now)
    {
      if key !in entries {
        return None;
      }
      var entry := entries[key];
      if now - entry.createdAt > entry.ttl {
        CoherentRemove(entries, order, key);
        entries := entries - {key};
        order := Without(order, key);
        return None;
      }
      entries := entries[key := entry.(lastAccessed := now)];
      r := Some(entry.value);
    }

    /** `has(key)`: reading through `get`, so it drops or touches the entry too. */
    method Has(key: string, now: int) returns (b: bool)
      requires Valid()
      modifies this
      ensures Valid()
      ensures b == Lookup(old(entries), key, now).Some?
      ensures entries == EntriesAfterGet(old(entries), key, now)
      ensures order == OrderAfterGet(old(entries), old(order), key, now)
    {
      var r := Get(key, now);
      b := r.Some?;
    }

    /** `delete(key)`: whether there was an entry. */
    method Delete(key: string) returns (b: bool)
      requires Valid()
      modifies this
      ensures Valid()
      ensures b == (key in old(entries))
      ensures entries == old(entries) - {key} && order == Without(old(order), key)
    {
      b := key in entries;
      CoherentRemove(entries, order, key);
      entries := entries - {key};
      order := Without(order, key);
    }

    /** `clear()`, and `destroy()` once the sweep timer is gone. */
    method Clear()
      modifies this
      ensures Valid()
      ensures entries == map[] && order == []
    {
      entries := map[];
      order := [];
    }

    method Size() returns (n: nat)
      ensures n == |entries|
    {
      n := |entries|;
    }

    /** `getStats()`: the size and the configured maximum. */
    method GetStats() returns (size: nat, maxSize: int)
      ensures size == |entries| && maxSize == config.maxSize
    {
      size := |entries|;
      maxSize := config.maxSize;
    }

    /** `cleanup()`: deletes every expired entry while walking the entries in order. */
    method Cleanup(now: int)
      requires Valid()
      modifies this
      ensures Valid()
      ensures entries == EntriesAfterCleanup(old(entries), now)
      ensures order == LiveKeys(old(entries), old(order), now)
    {
      ghost var start := entries;
      var keys := order;
      var i := 0;
      assert Distinct(keys);
      assert keys[..0] == [] && keys[0..] == keys;
      while i < |keys|
        invariant 0 <= i <= |keys|
        invariant entries == Sweep(start, keys[..i], now)
        invariant order == LiveKeys(start, keys[..i], now) + keys[i..]
      {
        var key := keys[i];
        SweepEntriesStep(start, keys, i, now);
        SweepOrderStep(start, keys, i, now);
        if key in entries && now - entries[key].createdAt > entries[key].ttl {
          entries := entries - {key};
          order := Without(order, key);
        }
        i := i + 1;
      }
      assert keys[..i] == keys;
      SweepAll(start, keys, now);
      CleanupCoherent(start, keys, now);
    }
  }

  /** `Without` works piece by piece. */
  lemma {:induction false} WithoutConcat(a: seq<string>, b: seq<string>, k: string)
    ensures Without(a + b, k) == Without(a, k) + Without(b, k)
    decreases |b|
  {
    if |b| == 0 {
      assert a + b == a;
    } else {
      assert (a + b)[..|a + b| - 1] == a + b[..|b| - 1];
      WithoutConcat(a, b[..|b| - 1], k);
    }
  }

  /** Deleting a key that occurs once takes it out where it stands. */
  lemma WithoutMiddle(a: seq<string>, k: string, b: seq<string>)
    requires k !in a && k !in b
    ensures Without(a + [k] + b, k) == a + b
  {
    WithoutConcat(a + [k], b, k);
    WithoutConcat(a, [k], k);
    assert Without([k], k) == [];
  }

  lemma LiveKeysSnoc<T>(entries: map<string, CacheEntry<T>>, keys: seq<string>, i: nat, now: int)
    requires i < |keys|
    ensures var k := keys[i];
      LiveKeys(entries, keys[..i + 1], now)
        == LiveKeys(entries, keys[..i], now) + (if k in entries && Expired(entries[k], now) then [] else [k])
  {
    assert keys[..i + 1][..i] == keys[..i];
  }

  /** One key of the sweep: deleting an expired key takes it out of the order where it stands. */
  lemma OrderSweepStep<T>(start: map<string, CacheEntry<T>>, keys: seq<string>, i: nat, now: int)
    requires Distinct(keys) && i < |keys|
    ensures var key := keys[i];
      var order := LiveKeys(start, keys[..i], now) + keys[i..];
      var next := LiveKeys(start, keys[..i + 1], now) + keys[i + 1..];
      (key in start && Expired(start[key], now) ==> Without(order, key) == next)
      && (!(key in start && Expired(start[key], now)) ==> order == next)
  {
    var key := keys[i];
    var done := LiveKeys(start, keys[..i], now);
    var rest := keys[i + 1..];
    assert key !in keys[..i] && key !in rest by {
      DistinctSplit(keys, i);
    }
    assert key !in done by {
      LiveKeysMembers(start, keys[..i], now, key);
    }
    var order := done + keys[i..];
    var next := LiveKeys(start, keys[..i + 1], now) + rest;
    assert order == done + [key] + rest by {
      assert keys[i..] == [key] + rest;
    }
    LiveKeysSnoc(start, keys, i, now);
    if key in start && Expired(start[key], now) {
      assert next == done + rest;
      WithoutMiddle(done, key, rest);
    } else {
      assert next == done + [key] + rest;
    }
  }

  /** A key of a duplicate-free order occurs neither before nor after its place. */
  lemma DistinctSplit(keys: seq<string>, i: nat)
    requires Distinct(keys) && i < |keys|
    ensures keys[i] !in keys[..i] && keys[i] !in keys[i + 1..]
  {
    var rest := keys[i + 1..];
    forall j | 0 <= j < |rest| ensures rest[j] != keys[i] {
      assert rest[j] == keys[i + 1 + j];
    }
  }

  /** The entries after `cleanup()` has visited the keys `done` in turn. */
  function Sweep<T>(start: map<string, CacheEntry<T>>, done: seq<string>, now: int): map<string, CacheEntry<T>>
    decreases |done|
  {
    if |done| == 0 then start
    else
      var p := Sweep(start, done[..|done| - 1], now);
      var k := done[|done| - 1];
      if k in p && Expired(p[k], now) then p - {k} else p
  }

  /** The sweep so far has deleted exactly the expired entries among the visited keys. */
  lemma {:induction false} SweepIsFilter<T>(start: map<string, CacheEntry<T>>, done: seq<string>, now: int)
    ensures Sweep(start, done, now) == map k | k in start && !(k in done && Expired(start[k], now)) :: start[k]
    decreases |done|
  {
    if |done| > 0 {
      SweepIsFilter(start, done[..|done| - 1], now);
      assert done == done[..|done| - 1] + [done[|done| - 1]];
    }
  }

  lemma SweepEntriesStep<T>(start: map<string, CacheEntry<T>>, keys: seq<string>, i: nat, now: int)
    requires i < |keys|
    ensures Sweep(start, keys[..i + 1], now)
         == if keys[i] in Sweep(start, keys[..i], now) && Expired(Sweep(start, keys[..i], now)[keys[i]], now)
            then Sweep(start, keys[..i], now) - {keys[i]} else Sweep(start, keys[..i], now)
  {
    assert keys[..i + 1][..i] == keys[..i];
  }

  /** The order follows the entries through one key of the sweep. */
  lemma SweepOrderStep<T>(start: map<string, CacheEntry<T>>, keys: seq<string>, i: nat, now: int)
    requires Distinct(keys) && i < |keys|
    ensures keys[i] in Sweep(start, keys[..i], now) && Expired(Sweep(start, keys[..i], now)[keys[i]], now) ==>
      Without(LiveKeys(start, keys[..i], now) + keys[i..], keys[i]) == LiveKeys(start, keys[..i + 1], now) + keys[i + 1..]
    ensures !(keys[i] in Sweep(start, keys[..i], now) && Expired(Sweep(start, keys[..i], now)[keys[i]], now)) ==>
      LiveKeys(start, keys[..i], now) + keys[i..] == LiveKeys(start, keys[..i + 1], now) + keys[i + 1..]
  {
    assert keys[i] !in keys[..i];
    SweepIsFilter(start, keys[..i], now);
    OrderSweepStep(start, keys, i, now);
  }

  /** Once every key has been visited, the sweep leaves exactly the unexpired entries. */
  lemma SweepAll<T>(start: map<string, CacheEntry<T>>, keys: seq<string>, now: int)
    requires forall k :: k in start ==> k in keys
    ensures Sweep(start, keys, now) == EntriesAfterCleanup(start, now)
  {
    SweepIsFilter(start, keys, now);
  }

  /** No key is kept twice when none was there twice. */
  lemma {:induction false} LiveKeysDistinct<T>(entries: map<string, CacheEntry<T>>, order: seq<string>, now: int)
    requires Distinct(order)
    ensures Distinct(LiveKeys(entries, order, now))
    decreases |order|
  {
    if |order| > 0 {
      var init := order[..|order| - 1];
      var k := order[|order| - 1];
      assert Distinct(init);
      LiveKeysDistinct(entries, init, now);
      assert k !in init;
      LiveKeysMembers(entries, init, now, k);
    }
  }

  /** After `cleanup()` the entries and the order agree again. */
  lemma CleanupCoherent<T>(entries: map<string, CacheEntry<T>>, order: seq<string>, now: int)
    requires Coherent(entries, order)
    ensures Coherent(EntriesAfterCleanup(entries, now), LiveKeys(entries, order, now))
  {
    LiveKeysDistinct(entries, order, now);
    forall k ensures k in EntriesAfterCleanup(entries, now) <==> k in LiveKeys(entries, order, now) {
      LiveKeysMembers(entries, order, now, k);
    }
  }

  /**
   * The `withCache` decorator: a hit answers from the cache without invoking
   * the wrapped method; a miss invokes it once (its result is `computed`) and
   * stores the result under the same key. The lookup reads the clock at
   * `now`; the store runs after the awaited method has resolved and reads it
   * again at `later`, which stamps the new entry and drives `set`'s eviction.
   */
  method WithCache<T>(cache: MemoryCache<T>, key: string, computed: T, ttl: Option<int>, now: int, later: int)
    returns (r: T, invoked: bool)
    requires cache.Valid()
    modifies cache
    ensures cache.Valid()
    ensures var hit := Lookup(old(cache.entries), key, now);
      (invoked <==> hit.None?)
      && (hit.Some? ==> r == hit.value && cache.entries == EntriesAfterGet(old(cache.entries), key, now)
                        && cache.order == old(cache.order))
      && (hit.None? ==> r == computed && key in cache.entries
                        && cache.entries[key] == CacheEntry(computed, later, later, EntryTtl(cache.config, ttl)))
    ensures Lookup(old(cache.entries), key, now).None? ==>
      cache.entries == EntriesAfterSet(cache.config, old(cache.entries) - {key}, Without(old(cache.order), key),
                                       key, computed, ttl, later)
      && cache.order == OrderAfterSet(cache.config, old(cache.entries) - {key}, Without(old(cache.order), key),
                                      key, later)
  {
    var cached := cache.Get(key, now);
    if cached.Some? {
      return cached.value, false;
    }
    assert cache.entries == old(cache.entries) - {key};
    cache.Set(key, computed, ttl, later);
    r, invoked := computed, true;
  }

  // ---------------------------------------------------------------------
  // Properties

  /** A value just stored is read back until its time-to-live has passed. */
  lemma SetThenGet<T>(config: CacheConfig, entries: map<string, CacheEntry<T>>, order: seq<string>,
                      key: string, value: T, ttl: Option<int>, now: int, later: int)
    requires Coherent(entries, order)
    ensures var after := EntriesAfterSet(config, entries, order, key, value, ttl, now);
      Lookup(after, key, later) == (if later - now > EntryTtl(config, ttl) then None else Some(value))
  {
  }

  /**
   * `set` changes only its own key and, when the cache is full and the key
   * is new, removes at most the one least recently used entry.
   */
  lemma SetFrame<T>(config: CacheConfig, entries: map<string, CacheEntry<T>>, order: seq<string>,
                    key: string, value: T, ttl: Option<int>, now: int)
    requires Coherent(entries, order)
    ensures var after := EntriesAfterSet(config, entries, order, key, value, ttl, now);
      var evicted := EvictedKey(entries, order, now);
      (forall k :: k != key && k in after ==> k in entries && after[k] == entries[k])
      && (forall k :: k != key && k in entries && k !in after ==>
            |entries| >= config.maxSize && key !in entries && evicted == Some(k))
      && (key in entries || |entries| < config.maxSize ==> after.Keys == entries.Keys + {key})
  {
  }

  /**
   * The evicted entry is the least recently accessed one, accessed strictly
   * before `now`, and the first such in insertion order; the key `""` is
   * never evicted, and nothing is when every entry was accessed at `now` or
   * later.
   */
  lemma EvictsLeastRecentlyUsed<T>(entries: map<string, CacheEntry<T>>, order: seq<string>, now: int)
    requires Coherent(entries, order)
    ensures var k := EvictedKey(entries, order, now);
      (k.Some? ==> k.value in entries && k.value != "" && entries[k.value].lastAccessed < now
                   && forall j :: j in entries ==> entries[j].lastAccessed >= entries[k.value].lastAccessed)
      && ((forall j :: j in entries ==> entries[j].lastAccessed >= now) ==> k.None?)
  {
    var v := Victim(entries, order, now);
    VictimUpToLeast(entries, order, now, |order|);
    if v.Some? {
      assert order[v.value] in entries;
      forall j | j in entries ensures entries[j].lastAccessed >= entries[order[v.value]].lastAccessed {
        var idx :| 0 <= idx < |order| && order[idx] == j;
      }
    }
  }

  /**
   * `cleanup()` cannot be observed through `get`: at the same time or later,
   * every key reads the same before and after it.
   */
  lemma CleanupUnobservable<T>(entries: map<string, CacheEntry<T>>, now: int, key: string, later: int)
    requires now <= later
    ensures Lookup(EntriesAfterCleanup(entries, now), key, later) == Lookup(entries, key, later)
  {
  }

  /** `get` on a live entry answers its value and leaves every other entry as it was. */
  lemma GetTouchesOnlyItsKey<T>(entries: map<string, CacheEntry<T>>, key: string, now: int)
    ensures var after := EntriesAfterGet(entries, key, now);
      (forall k :: k != key ==> (k in after <==> k in entries) && (k in after ==> after[k] == entries[k]))
      && (Lookup(entries, key, now).Some? ==> key in after && after[key].lastAccessed == now
                                              && after[key].value == entries[key].value)
      && (Lookup(entries, key, now).None? ==> key !in after)
  {
  }
}
