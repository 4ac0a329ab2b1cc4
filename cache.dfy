/**
 * The compute cache of org.javasimon.cache: MapCache (a key to entry map filled by a loader,
 * with an optional size bound and an optional time to live), its MapCacheEntry records, and
 * the pass-through NoCache.
 *
 * The clock is explicit: `now` is the timestamp MapCache.get reads on entry and `evictNow` the
 * one the eviction pass reads when it starts. The loader is a function of the key and of the
 * moment it is called, which stands for whatever outside state it consults; it may fail.
 */
module Cache {
  import opened Wrappers
  import JavaLang

  /** What a cache holds for one key, as seen from outside: the value and its last use. */
  datatype Cached<V> = Cached(value: V, used: int)

  /**
   * The hit test of MapCache.isExpired: an entry used at `used` is stale at `now` when
   * now > used + ttl, the sum taken on Java longs.
   */
  predicate Expired(ttl: Option<int>, used: int, now: int) {
    ttl.Some? && now > JavaLang.Long(used + ttl.value)
  }

  /**
   * The test of the eviction pass: an entry used at `used` goes when used < now - ttl, the
   * difference taken on Java longs.
   */
  predicate Evictable(ttl: Option<int>, used: int, now: int) {
    ttl.Some? && used < JavaLang.Long(now - ttl.value)
  }

  /** While neither the sum nor the difference leaves the range of a long, the two tests agree. */
  lemma StaleTestsAgree(ttl: int, used: int, now: int)
    requires -JavaLang.TWO_TO_63 <= used + ttl < JavaLang.TWO_TO_63
    requires -JavaLang.TWO_TO_63 <= now - ttl < JavaLang.TWO_TO_63
    ensures Expired(Some(ttl), used, now) <==> Evictable(Some(ttl), used, now)
  {
  }

  /**
   * With a time to live of Long.MAX_VALUE the sum wraps: an entry used at 1000 is stale for a
   * hit at 1001, while the eviction pass keeps it.
   */
  lemma HugeTtlExpiresAtOnce()
    ensures Expired(Some(JavaLang.TWO_TO_63 - 1), 1000, 1001)
    ensures !Evictable(Some(JavaLang.TWO_TO_63 - 1), 1000, 1001)
  {
    assert JavaLang.Long(1000 + (JavaLang.TWO_TO_63 - 1)) == 999 - JavaLang.TWO_TO_63;
  }

  /** k holds one of the smallest use timestamps of m. */
  predicate IsOldest<K, V>(m: map<K, Cached<V>>, k: K) {
    k in m && forall j :: j in m ==> m[k].used <= m[j].used
  }

  /**
   * The eviction pass run on a miss at capacity: it keeps entries unchanged and only drops some;
   * when any entry is stale at `now` it drops exactly the stale ones; otherwise it drops exactly
   * one oldest entry (or nothing, from an empty map).
   */
  ghost predicate IsEviction<K(!new), V>(before: map<K, Cached<V>>, after: map<K, Cached<V>>, ttl: Option<int>, now: int) {
    && (forall k :: k in after ==> k in before && after[k] == before[k])
    && if exists k :: k in before && Evictable(ttl, before[k].used, now) then
         forall k :: k in before ==> (k in after <==> !Evictable(ttl, before[k].used, now))
       else
         before == map[] || exists o :: IsOldest(before, o) && forall k :: k in before ==> (k in after <==> k != o)
  }

  /** A loader whose answer for a key does not depend on when it is asked. */
  ghost predicate TimeIndependent<K(!new), V, E>(loader: (K, int) -> Result<V, E>) {
    forall k, t1, t2 :: loader(k, t1) == loader(k, t2)
  }

  lemma AnswerAnyTime<K(!new), V, E>(loader: (K, int) -> Result<V, E>, k: K, t1: int, t2: int)
    requires TimeIndependent(loader)
    ensures loader(k, t1) == loader(k, t2)
  {
  }

  lemma KeysShrink<K, X, Y>(small: map<K, X>, big: map<K, Y>, gone: K)
    requires forall k :: k in small ==> k in big
    requires gone in big && gone !in small
    ensures |small| < |big|
  {
    assert big.Keys == small.Keys + (big.Keys - small.Keys);
    assert gone in big.Keys - small.Keys;
  }

  lemma KeysNoMore<K, X, Y>(small: map<K, X>, big: map<K, Y>)
    requires forall k :: k in small ==> k in big
    ensures |small| <= |big|
  {
    assert big.Keys == small.Keys + (big.Keys - small.Keys);
  }

  /**
   * s has at most n elements. Stated by recursion on s, so that the methods of MapCache reason
   * about the size bound only through the lemmas below.
   */
  ghost predicate AtMost<K(!new)>(s: set<K>, n: int)
    decreases s
  {
    0 <= n && (s == {} || forall k :: k in s ==> AtMost(s - {k}, n - 1))
  }

  lemma {:induction false} AtMostIsCardinality<K(!new)>(s: set<K>, n: int)
    ensures AtMost(s, n) <==> |s| <= n
    decreases s
  {
    if s != {} && 0 <= n {
      forall k | k in s ensures AtMost(s - {k}, n - 1) <==> |s| <= n {
        AtMostIsCardinality(s - {k}, n - 1);
      }
      var k :| k in s;
    }
  }

  lemma AtMostSubset<K(!new)>(small: set<K>, big: set<K>, n: int)
    requires small <= big && AtMost(big, n)
    ensures AtMost(small, n)
  {
    AtMostIsCardinality(big, n);
    assert big == small + (big - small);
    AtMostIsCardinality(small, n);
  }

  lemma AtMostWeaken<K(!new)>(s: set<K>, n: int)
    requires AtMost(s, n - 1)
    ensures AtMost(s, n)
  {
    AtMostIsCardinality(s, n - 1);
    AtMostIsCardinality(s, n);
  }

  lemma AtMostInsert<K(!new)>(s: set<K>, k: K, n: int)
    requires AtMost(s, n - 1)
    ensures AtMost(s + {k}, n)
  {
    AtMostIsCardinality(s, n - 1);
    AtMostIsCardinality(s + {k}, n);
  }

  /** Every non-empty cache has an oldest entry, so the eviction pass can always choose one. */
  lemma {:induction false} OldestExists<K, V>(m: map<K, Cached<V>>)
    requires m != map[]
    ensures exists o :: IsOldest(m, o)
    decreases |m|
  {
    var k :| k in m;
    var rest := m - {k};
    if rest == map[] {
      forall j | j in m ensures j == k {
        assert j != k ==> j in rest;
      }
      assert IsOldest(m, k);
    } else {
      KeysShrink(rest, m, k);
      OldestExists(rest);
      var o :| IsOldest(rest, o);
      assert forall j :: j in m ==> j == k || j in rest;
      if m[k].used <= m[o].used {
        assert IsOldest(m, k);
      } else {
        assert IsOldest(m, o);
      }
    }
  }

  /** The eviction pass frees at least one slot whenever the cache holds anything. */
  lemma {:induction false} EvictionFreesRoom<K(!new), V>(before: map<K, Cached<V>>, after: map<K, Cached<V>>, ttl: Option<int>, now: int)
    requires IsEviction(before, after, ttl, now)
    requires before != map[]
    ensures |after| < |before|
  {
    if k :| k in before && Evictable(ttl, before[k].used, now) {
      KeysShrink(after, before, k);
    } else {
      var o :| IsOldest(before, o) && forall k :: k in before ==> (k in after <==> k != o);
      KeysShrink(after, before, o);
    }
  }

  /** Hence an eviction from a cache within bound n leaves room for one more entry. */
  lemma EvictionMakesRoom<K(!new), V>(before: map<K, Cached<V>>, after: map<K, Cached<V>>, ttl: Option<int>, now: int, n: int)
    requires IsEviction(before, after, ttl, now)
    requires 1 <= n && AtMost(before.Keys, n) && !AtMost(before.Keys, n - 1)
    ensures AtMost(after.Keys, n - 1)
  {
    AtMostIsCardinality(before.Keys, n);
    AtMostIsCardinality(before.Keys, n - 1);
    assert before.Keys != {};
    EvictionFreesRoom(before, after, ttl, now);
    AtMostIsCardinality(after.Keys, n - 1);
  }

  /**
   * When nothing is stale and one entry is strictly older than every other, the eviction pass
   * drops exactly that entry.
   */
  lemma EvictionDropsUniqueOldest<K(!new), V>(before: map<K, Cached<V>>, after: map<K, Cached<V>>, ttl: Option<int>, now: int, o: K)
    requires IsEviction(before, after, ttl, now)
    requires forall k :: k in before ==> !Evictable(ttl, before[k].used, now)
    requires o in before && forall k :: k in before && k != o ==> before[o].used < before[k].used
    ensures after == before - {o}
  {
    var o' :| IsOldest(before, o') && forall k :: k in before ==> (k in after <==> k != o');
    assert o' == o;
  }

  /** The part of v filed under keys. */
  function SubView<K, V>(v: map<K, Cached<V>>, keys: set<K>): map<K, Cached<V>> {
    map k | k in keys && k in v :: v[k]
  }

  /**
   * What one pass over the entries establishes, recording which entries are not stale, whether
   * any was, and one oldest among those that are not, is an eviction once the stale entries, or
   * failing any, that oldest one, are gone.
   */
  lemma ScanIsEviction<K(!new), V>(was: map<K, Cached<V>>, unexpired: set<K>, oldest: Option<K>, remaining: set<K>, anyStale: bool, ttl: Option<int>, now: int)
    requires forall k :: k in unexpired <==> k in was && !Evictable(ttl, was[k].used, now)
    requires anyStale <==> exists k :: k in was && Evictable(ttl, was[k].used, now)
    requires oldest.None? ==> forall k :: k in was ==> Evictable(ttl, was[k].used, now)
    requires oldest.Some? ==> oldest.value in unexpired && forall k :: k in unexpired ==> was[oldest.value].used <= was[k].used
    requires remaining == if !anyStale && oldest.Some? then unexpired - {oldest.value} else unexpired
    ensures IsEviction(was, SubView(was, remaining), ttl, now)
  {
    if !anyStale && oldest.Some? {
      assert IsOldest(was, oldest.value);
    }
  }

  /** A cache bounded by size holding these contents has no room for one more entry. */
  ghost predicate IsFull<K(!new), V>(size: Option<int>, contents: map<K, Cached<V>>) {
    size.Some? && !AtMost(contents.Keys, size.value - 1)
  }

  /**
   * One MapCache.get of key at `now`, taking the contents and the loader's call log from
   * `before`/`loadsBefore` to `after`/`loadsAfter` and answering r; `afterEviction` is what the
   * eviction pass, which runs at `evictNow`, left.
   * - A miss asks the loader once; at capacity it first evicts; a value that loaded is stored,
   *   stamped `now`, and a failure stores nothing but keeps the eviction.
   * - A hit on a stale entry asks the loader once and, if that succeeds, replaces the value and
   *   the stamp; a failure leaves the entry as it was.
   * - A hit on a live entry answers the stored value, asks nothing and restamps the entry.
   */
  ghost predicate GetStep<K(!new), V, E>(
    loader: (K, int) -> Result<V, E>, size: Option<int>, ttl: Option<int>,
    before: map<K, Cached<V>>, loadsBefore: seq<K>, key: K, now: int, evictNow: int,
    r: Result<V, E>, afterEviction: map<K, Cached<V>>, after: map<K, Cached<V>>, loadsAfter: seq<K>)
  {
    if key !in before then
      && loadsAfter == loadsBefore + [key]
      && r == loader(key, now)
      && (if IsFull(size, before) then IsEviction(before, afterEviction, ttl, evictNow) else afterEviction == before)
      && after == (if r.Ok? then afterEviction[key := Cached(r.value, now)] else afterEviction)
    else if Expired(ttl, before[key].used, now) then
      && loadsAfter == loadsBefore + [key]
      && r == loader(key, now)
      && after == (if r.Ok? then before[key := Cached(r.value, now)] else before)
    else
      && loadsAfter == loadsBefore
      && r == Ok(before[key].value)
      && after == before[key := Cached(before[key].value, now)]
  }

  /** With a size bound of at least one, no get makes the cache hold more than `size` entries. */
  lemma GetKeepsBound<K(!new), V, E>(
    loader: (K, int) -> Result<V, E>, size: Option<int>, ttl: Option<int>,
    before: map<K, Cached<V>>, loadsBefore: seq<K>, key: K, now: int, evictNow: int,
    r: Result<V, E>, afterEviction: map<K, Cached<V>>, after: map<K, Cached<V>>, loadsAfter: seq<K>)
    requires GetStep(loader, size, ttl, before, loadsBefore, key, now, evictNow, r, afterEviction, after, loadsAfter)
    requires size.Some? && size.value >= 1 && |before| <= size.value
    ensures |after| <= size.value
  {
    AtMostIsCardinality(before.Keys, size.value);
    GetKeepsAtMost(loader, size, ttl, before, loadsBefore, key, now, evictNow, r, afterEviction, after, loadsAfter);
    AtMostIsCardinality(after.Keys, size.value);
  }

  lemma GetKeepsAtMost<K(!new), V, E>(
    loader: (K, int) -> Result<V, E>, size: Option<int>, ttl: Option<int>,
    before: map<K, Cached<V>>, loadsBefore: seq<K>, key: K, now: int, evictNow: int,
    r: Result<V, E>, afterEviction: map<K, Cached<V>>, after: map<K, Cached<V>>, loadsAfter: seq<K>)
    requires GetStep(loader, size, ttl, before, loadsBefore, key, now, evictNow, r, afterEviction, after, loadsAfter)
    requires size.Some? && size.value >= 1 && AtMost(before.Keys, size.value)
    ensures AtMost(after.Keys, size.value)
  {
    var n := size.value;
    if key !in before {
      if IsFull(size, before) {
        EvictionMakesRoom(before, afterEviction, ttl, evictNow, n);
      }
      assert AtMost(afterEviction.Keys, n - 1);
      if r.Ok? {
        AtMostInsert(afterEviction.Keys, key, n);
        assert after.Keys == afterEviction.Keys + {key};
      } else {
        AtMostWeaken(afterEviction.Keys, n);
      }
    } else {
      assert after.Keys == before.Keys;
    }
  }

  /** A miss below capacity, or with no bound at all, evicts nothing. */
  lemma MissBelowCapacity<K(!new), V, E>(
    loader: (K, int) -> Result<V, E>, size: Option<int>, ttl: Option<int>,
    before: map<K, Cached<V>>, loadsBefore: seq<K>, key: K, now: int, evictNow: int,
    r: Result<V, E>, afterEviction: map<K, Cached<V>>, after: map<K, Cached<V>>, loadsAfter: seq<K>)
    requires GetStep(loader, size, ttl, before, loadsBefore, key, now, evictNow, r, afterEviction, after, loadsAfter)
    requires key !in before && (size.None? || |before| < size.value)
    ensures afterEviction == before
    ensures after == (if r.Ok? then before[key := Cached(r.value, now)] else before)
  {
    if size.Some? {
      AtMostIsCardinality(before.Keys, size.value - 1);
    }
  }

  /**
   * A miss at capacity when nothing is stale and one entry is strictly older than every other
   * drops that entry before filing the new one.
   */
  lemma MissEvictsOldest<K(!new), V, E>(
    loader: (K, int) -> Result<V, E>, size: Option<int>, ttl: Option<int>,
    before: map<K, Cached<V>>, loadsBefore: seq<K>, key: K, now: int, evictNow: int,
    r: Result<V, E>, afterEviction: map<K, Cached<V>>, after: map<K, Cached<V>>, loadsAfter: seq<K>, oldest: K)
    requires GetStep(loader, size, ttl, before, loadsBefore, key, now, evictNow, r, afterEviction, after, loadsAfter)
    requires key !in before && size.Some? && |before| >= size.value
    requires forall k :: k in before ==> !Evictable(ttl, before[k].used, evictNow)
    requires oldest in before && forall k :: k in before && k != oldest ==> before[oldest].used < before[k].used
    ensures afterEviction == before - {oldest}
    ensures after == (if r.Ok? then afterEviction[key := Cached(r.value, now)] else afterEviction)
  {
    AtMostIsCardinality(before.Keys, size.value - 1);
    EvictionDropsUniqueOldest(before, afterEviction, ttl, evictNow, oldest);
  }

  /** One cached value with the time it was last used (MapCacheEntry). */
  class MapCacheEntry<K, V> {
    const key: K
    var value: V
    var useTimestamp: int

    constructor (key: K, value: V, useTimestamp: int)
      ensures this.key == key && this.value == value && this.useTimestamp == useTimestamp
    {
      this.key := key;
      this.value := value;
      this.useTimestamp := useTimestamp;
    }

    /** Reads the value and records `useTimestamp` as its last use. */
    method GetValue(useTimestamp: int) returns (r: V)
      modifies this
      ensures r == value && value == old(value)
      ensures this.useTimestamp == useTimestamp
    {
      this.useTimestamp := useTimestamp;
      r := value;
    }

    /** Replaces the value and its last use together. */
    method SetValue(value: V, useTimestamp: int)
      modifies this
      ensures this.value == value && this.useTimestamp == useTimestamp
    {
      this.value := value;
      this.useTimestamp := useTimestamp;
    }
  }

  /** USE_TIMESTAMP_COMPARATOR: Long.compareTo on the two use timestamps. */
  function CompareUseTimestamp<K, V>(a: MapCacheEntry<K, V>, b: MapCacheEntry<K, V>): (r: int)
    reads a, b
    ensures -1 <= r <= 1
    ensures r < 0 <==> a.useTimestamp < b.useTimestamp
    ensures r == 0 <==> a.useTimestamp == b.useTimestamp
  {
    if a.useTimestamp < b.useTimestamp then -1
    else if a.useTimestamp == b.useTimestamp then 0
    else 1
  }

  class MapCache<K(==,!new), V, E> {
    const loader: (K, int) -> Result<V, E>
    const size: Option<int>
    const timeToLive: Option<int>
    var entries: map<K, MapCacheEntry<K, V>>
    /** What the entries hold, key by key. */
    ghost var contents: map<K, Cached<V>>
    /** For each cached key, a moment at which the loader produced its cached value. */
    ghost var loadedAt: map<K, int>
    /** Every entry object this cache has filed. */
    ghost var Repr: set<MapCacheEntry<K, V>>
    /** Every key the loader was asked for, in order. */
    ghost var loads: seq<K>

    /**
     * Entries are filed under their own key and mirrored by contents; every cached value is one
     * the loader produced for its key; a size bound of at least one is respected.
     */
    ghost predicate Valid()
      reads this, Repr
    {
      && (forall k :: k in entries ==> entries[k] in Repr)
      && contents.Keys == entries.Keys
      && (forall k :: k in entries ==> entries[k].key == k && contents[k] == Cached(entries[k].value, entries[k].useTimestamp))
      && (forall k :: k in contents ==> k in loadedAt && loader(k, loadedAt[k]) == Ok(contents[k].value))
      && (size.Some? && size.value >= 1 ==> AtMost(contents.Keys, size.value))
    }

    constructor (loader: (K, int) -> Result<V, E>, size: Option<int>, timeToLive: Option<int>)
      ensures Valid() && contents == map[] && loads == [] && Repr == {}
      ensures this.loader == loader && this.size == size && this.timeToLive == timeToLive
    {
      this.loader := loader;
      this.size := size;
      this.timeToLive := timeToLive;
      entries := map[];
      contents := map[];
      Repr := {};
      loadedAt := map[];
      loads := [];
    }

    predicate IsExpired(entry: MapCacheEntry<K, V>, timestamp: int)
      reads entry
    {
      Expired(timeToLive, entry.useTimestamp, timestamp)
    }

    /**
     * The value for key. A hit on an entry that is not stale returns the stored value and marks
     * it used at `now`; a hit on a stale entry and a miss ask the loader at `now`. A miss at
     * capacity first runs the eviction pass at `evictNow`; a failed load stores nothing but keeps
     * the eviction.
     */
    method Get(key: K, now: int, evictNow: int) returns (r: Result<V, E>, ghost afterEviction: map<K, Cached<V>>)
      requires Valid()
      modifies this, Repr
      ensures Valid() && Repr >= old(Repr) && fresh(Repr - old(Repr))
      ensures GetStep(loader, size, timeToLive, old(contents), old(loads), key, now, evictNow, r, afterEviction, contents, loads)
      ensures TimeIndependent(loader) ==> r == loader(key, now)
    {
      var timestamp := now;
      if key !in entries {
        r, afterEviction := LoadMissing(key, timestamp, evictNow);
      } else {
        afterEviction := contents;
        r := UseEntry(key, timestamp);
      }
    }

    /** The cache-miss half of get: make room when at capacity, load, and store what loaded. */
    method LoadMissing(key: K, timestamp: int, evictNow: int) returns (r: Result<V, E>, ghost afterEviction: map<K, Cached<V>>)
      requires Valid() && key !in contents
      modifies this
      ensures Valid() && Repr >= old(Repr) && fresh(Repr - old(Repr))
      ensures loads == old(loads) + [key]
      ensures r == loader(key, timestamp)
      ensures if old(Full()) then IsEviction(old(contents), afterEviction, timeToLive, evictNow)
              else afterEviction == old(contents)
      ensures contents == (if r.Ok? then afterEviction[key := Cached(r.value, timestamp)] else afterEviction)
    {
      MakeRoom(evictNow);
      afterEviction := contents;
      r := loader(key, timestamp);
      loads := loads + [key];
      if r.Ok? {
        Store(key, r.value, timestamp);
      }
    }

    /** Files a fresh entry for a key the cache does not hold, in the room MakeRoom left. */
    method Store(key: K, value: V, timestamp: int)
      requires Valid() && key !in contents && HasRoom()
      requires loader(key, timestamp) == Ok(value)
      modifies this
      ensures Valid() && Repr >= old(Repr) && fresh(Repr - old(Repr)) && loads == old(loads)
      ensures contents == old(contents)[key := Cached(value, timestamp)]
    {
      var entry := new MapCacheEntry(key, value, timestamp);
      File(entry, timestamp);
    }

    /** Files entry under its key, which the cache does not hold yet. */
    method File(entry: MapCacheEntry<K, V>, timestamp: int)
      requires Valid() && entry.key !in contents && entry !in Repr && HasRoom()
      requires loader(entry.key, timestamp) == Ok(entry.value)
      modifies this
      ensures Valid() && Repr == old(Repr) + {entry} && loads == old(loads)
      ensures contents == old(contents)[entry.key := Cached(entry.value, entry.useTimestamp)]
    {
      var key := entry.key;
      ghost var keys := contents.Keys + {key};
      if size.Some? && size.value >= 1 {
        AtMostInsert(contents.Keys, key, size.value);
      }
      entries := entries[key := entry];
      Repr := Repr + {entry};
      contents := contents[key := Cached(entry.value, entry.useTimestamp)];
      loadedAt := loadedAt[key := timestamp];
      assert contents.Keys == keys;
    }

    /**
     * The cache holds at least `size` entries, so a miss must first make room (the test that
     * guards removeAllExpiredOrOldest in get).
     */
    ghost predicate Full()
      reads this
    {
      IsFull(size, contents)
    }

    /** A bound of at least one leaves room for one more entry. */
    ghost predicate HasRoom()
      reads this
    {
      size.None? || size.value < 1 || AtMost(contents.Keys, size.value - 1)
    }

    /** The test itself, on the number of entries. */
    method AtCapacity() returns (full: bool)
      requires Valid()
      ensures full == Full()
    {
      full := !(size.None? || |entries| < size.value);
      if size.Some? {
        AtMostIsCardinality(contents.Keys, size.value - 1);
      }
    }

    /** Runs the eviction pass when the cache is at capacity, so that one more entry fits. */
    method MakeRoom(evictNow: int)
      requires Valid()
      modifies this
      ensures Valid() && loads == old(loads) && Repr == old(Repr)
      ensures if old(Full()) then IsEviction(old(contents), contents, timeToLive, evictNow)
              else contents == old(contents)
      ensures HasRoom()
    {
      var full := AtCapacity();
      if full {
        RemoveAllExpiredOrOldest(evictNow);
        if size.value >= 1 {
          EvictionMakesRoom(old(contents), contents, timeToLive, evictNow, size.value);
        }
      }
    }

    /** The cache-hit half of get: reload a stale entry in place, or read a live one. */
    method UseEntry(key: K, timestamp: int) returns (r: Result<V, E>)
      requires Valid() && key in contents
      modifies this, entries[key]
      ensures Valid() && Repr == old(Repr)
      ensures Expired(timeToLive, old(contents)[key].used, timestamp) ==>
        && loads == old(loads) + [key]
        && r == loader(key, timestamp)
        && contents == (if r.Ok? then old(contents)[key := Cached(r.value, timestamp)] else old(contents))
      ensures !Expired(timeToLive, old(contents)[key].used, timestamp) ==>
        && loads == old(loads)
        && r == Ok(old(contents)[key].value)
        && contents == old(contents)[key := Cached(old(contents)[key].value, timestamp)]
      ensures TimeIndependent(loader) ==> r == loader(key, timestamp)
    {
      var entry := entries[key];
      if IsExpired(entry, timestamp) {
        r := loader(key, timestamp);
        loads := loads + [key];
        if r.Ok? {
          entry.SetValue(r.value, timestamp);
          contents := contents[key := Cached(r.value, timestamp)];
          loadedAt := loadedAt[key := timestamp];
        }
      } else {
        var v := entry.GetValue(timestamp);
        r := Ok(v);
        contents := contents[key := Cached(v, timestamp)];
        if TimeIndependent(loader) {
          AnswerAnyTime(loader, key, loadedAt[key], timestamp);
        }
      }
    }

    /** Drops key, if present, and nothing else. */
    method Remove(key: K)
      requires Valid()
      modifies this
      ensures Valid() && loads == old(loads) && Repr == old(Repr)
      ensures contents == old(contents) - {key}
    {
      entries := entries - {key};
      contents := contents - {key};
      if size.Some? && size.value >= 1 {
        AtMostSubset(contents.Keys, old(contents).Keys, size.value);
      }
    }

    /** Empties the cache. */
    method RemoveAll()
      requires Valid()
      modifies this
      ensures Valid() && loads == old(loads) && Repr == old(Repr)
      ensures contents == map[]
    {
      entries := map[];
      contents := map[];
    }

    /**
     * Removes every entry stale at evictNow; when none was, removes one entry with the smallest
     * use timestamp.
     */
    method RemoveAllExpiredOrOldest(evictNow: int)
      requires Valid()
      modifies this
      ensures Valid() && loads == old(loads) && Repr == old(Repr)
      ensures IsEviction(old(contents), contents, timeToLive, evictNow)
    {
      var kept := Survivors(evictNow);
      ghost var after := SubView(contents, kept.Keys);
      if size.Some? && size.value >= 1 {
        AtMostSubset(after.Keys, contents.Keys, size.value);
      }
      entries := kept;
      contents := after;
    }

    /**
     * The pass of removeAllExpiredOrOldest over the entries, applied to a copy: the entries that
     * are left once the stale ones are dropped or, failing any, the first entry met with the
     * smallest use timestamp.
     */
    method Survivors(evictNow: int) returns (kept: map<K, MapCacheEntry<K, V>>)
      requires Valid()
      ensures forall k :: k in kept ==> k in entries && kept[k] == entries[k]
      ensures IsEviction(contents, SubView(contents, kept.Keys), timeToLive, evictNow)
    {
      var expireTimestamp: Option<int> := if timeToLive.None? then None else Some(JavaLang.Long(evictNow - timeToLive.value));
      var removeCount := 0;
      var oldestEntry: Option<MapCacheEntry<K, V>> := None;
      kept := entries;
      var pending := entries.Keys;
      while pending != {}
        invariant pending <= contents.Keys
        invariant forall k :: k in kept ==> k in entries && kept[k] == entries[k]
        invariant forall k :: k in kept <==> k in contents && (k in pending || !Evictable(timeToLive, contents[k].used, evictNow))
        invariant removeCount == 0 <==> forall k :: k in contents && k !in pending ==> !Evictable(timeToLive, contents[k].used, evictNow)
        invariant oldestEntry.None? ==> forall k :: k in contents && k !in pending ==> Evictable(timeToLive, contents[k].used, evictNow)
        invariant oldestEntry.Some? ==>
          && oldestEntry.value.key in contents && oldestEntry.value.key !in pending
          && entries[oldestEntry.value.key] == oldestEntry.value
          && !Evictable(timeToLive, contents[oldestEntry.value.key].used, evictNow)
          && forall k :: k in contents && k !in pending && !Evictable(timeToLive, contents[k].used, evictNow) ==>
               contents[oldestEntry.value.key].used <= contents[k].used
        decreases pending
      {
        var key :| key in pending;
        var entry := entries[key];
        if expireTimestamp.Some? && entry.useTimestamp < expireTimestamp.value {
          kept := kept - {key};
          removeCount := removeCount + 1;
        } else if oldestEntry.None? || entry.useTimestamp < oldestEntry.value.useTimestamp {
          oldestEntry := Some(entry);
        }
        pending := pending - {key};
      }
      ghost var unexpired := kept.Keys;
      ghost var oldest := if oldestEntry.Some? then Some(oldestEntry.value.key) else None;
      if removeCount == 0 && oldestEntry.Some? {
        kept := kept - {oldestEntry.value.key};
      }
      ScanIsEviction(contents, unexpired, oldest, kept.Keys, removeCount != 0, timeToLive, evictNow);
    }
  }

  /**
   * A run of gets on a cache that starts empty: the i-th get asks for keys[i] at times[i] (the
   * eviction pass reading the same time), answers answers[i], and takes the contents from
   * states[i] to states[i + 1] and the loader's call log from logs[i] to logs[i + 1].
   */
  ghost predicate GetTrace<K(!new), V, E>(
    loader: (K, int) -> Result<V, E>, size: Option<int>, ttl: Option<int>, keys: seq<K>, times: seq<int>,
    answers: seq<Result<V, E>>, evictions: seq<map<K, Cached<V>>>, states: seq<map<K, Cached<V>>>, logs: seq<seq<K>>)
  {
    && |times| == |answers| == |evictions| == |keys|
    && |states| == |logs| == |keys| + 1
    && states[0] == map[] && logs[0] == []
    && forall i :: 0 <= i < |keys| ==>
         GetStep(loader, size, ttl, states[i], logs[i], keys[i], times[i], times[i], answers[i], evictions[i], states[i + 1], logs[i + 1])
  }

  /** Runs the gets in order on a new MapCache and reports the answers. */
  method Replay<K(==,!new), V, E>(loader: (K, int) -> Result<V, E>, size: Option<int>, ttl: Option<int>, keys: seq<K>, times: seq<int>)
    returns (answers: seq<Result<V, E>>, ghost evictions: seq<map<K, Cached<V>>>, ghost states: seq<map<K, Cached<V>>>, ghost logs: seq<seq<K>>)
    requires |times| == |keys|
    ensures GetTrace(loader, size, ttl, keys, times, answers, evictions, states, logs)
  {
    var cache := new MapCache(loader, size, ttl);
    answers, evictions, states, logs := [], [], [map[]], [[]];
    var i := 0;
    while i < |keys|
      invariant 0 <= i <= |keys|
      invariant cache.Valid() && fresh(cache.Repr)
      invariant cache.loader == loader && cache.size == size && cache.timeToLive == ttl
      invariant |answers| == |evictions| == i && |states| == |logs| == i + 1
      invariant states[0] == map[] && logs[0] == []
      invariant states[i] == cache.contents && logs[i] == cache.loads
      invariant forall j :: 0 <= j < i ==>
        GetStep(loader, size, ttl, states[j], logs[j], keys[j], times[j], times[j], answers[j], evictions[j], states[j + 1], logs[j + 1])
    {
      var r, evicted := cache.Get(keys[i], times[i], times[i]);
      answers, evictions, states, logs := answers + [r], evictions + [evicted], states + [cache.contents], logs + [cache.loads];
      i := i + 1;
    }
  }

  /** The pass-through cache: every request goes to the loader and nothing is kept. */
  datatype NoCache<!K, V, E> = NoCache(loader: (K, int) -> Result<V, E>) {
    function Get(key: K, now: int): Result<V, E> {
      loader(key, now)
    }

    function Remove(key: K): NoCache<K, V, E> {
      this
    }

    function RemoveAll(): NoCache<K, V, E> {
      this
    }
  }

  /** A call on the Cache interface. */
  datatype Call<K> = Fetch(key: K, at: int) | Drop(key: K) | DropAll

  /** The answers a NoCache gives to a sequence of calls, and the keys its loader is asked for. */
  function Serve<K, V, E>(c: NoCache<K, V, E>, calls: seq<Call<K>>): (seq<Result<V, E>>, seq<K>)
    decreases |calls|
  {
    if calls == [] then ([], [])
    else
      match calls[0]
      case Fetch(k, t) =>
        var (answers, asked) := Serve(c, calls[1..]);
        ([c.Get(k, t)] + answers, [k] + asked)
      case Drop(k) => Serve(c.Remove(k), calls[1..])
      case DropAll => Serve(c.RemoveAll(), calls[1..])
  }

  /** The fetches among the calls, in order. */
  function Fetches<K>(calls: seq<Call<K>>): (r: seq<Call<K>>)
    ensures forall i :: 0 <= i < |r| ==> r[i].Fetch?
  {
    if calls == [] then []
    else if calls[0].Fetch? then [calls[0]] + Fetches(calls[1..])
    else Fetches(calls[1..])
  }

  /**
   * NoCache answers the i-th fetch with exactly what the loader answers and asks the loader once
   * per fetch, a repeated key included; remove and removeAll change nothing.
   */
  lemma {:induction false} NoCacheIsPassThrough<K, V, E>(c: NoCache<K, V, E>, calls: seq<Call<K>>)
    ensures var (answers, asked) := Serve(c, calls);
      && |answers| == |asked| == |Fetches(calls)|
      && forall i :: 0 <= i < |answers| ==>
           asked[i] == Fetches(calls)[i].key && answers[i] == c.loader(Fetches(calls)[i].key, Fetches(calls)[i].at)
    decreases |calls|
  {
    if calls != [] {
      NoCacheIsPassThrough(c, calls[1..]);
    }
  }
}
