/**
 * The behaviour the unit tests of MapCache pin down (MapCacheTest), stated for every run of gets
 * that MapCache.get's contract allows: the loader answers 1 -> "One" up to 4 -> "Four", and the
 * clock advances between calls as the tests' sleeps do.
 */
module CacheScenarios {
  import opened Wrappers
  import opened Cache

  /** The loader the tests stub: four known keys, a failure for any other. */
  function Numbers(key: int, at: int): (r: Result<string, string>)
    ensures r.Ok? <==> 1 <= key <= 4
  {
    if key == 1 then Ok("One")
    else if key == 2 then Ok("Two")
    else if key == 3 then Ok("Three")
    else if key == 4 then Ok("Four")
    else Err("no value")
  }

  /** Two gets of the same key with room to spare: the second is served from the cache. */
  lemma {:induction false} CacheEffect(answers: seq<Result<string, string>>, evictions: seq<map<int, Cached<string>>>, states: seq<map<int, Cached<string>>>, logs: seq<seq<int>>)
    requires GetTrace(Numbers, Some(10), None, [1, 1], [0, 1], answers, evictions, states, logs)
    ensures answers == [Ok("One"), Ok("One")]
    ensures logs[2] == [1]
  {
    AtMostIsCardinality(states[0].Keys, 9);
    assert GetStep(Numbers, Some(10), None, states[0], logs[0], 1, 0, 0, answers[0], evictions[0], states[1], logs[1]);
    assert states[1] == map[1 := Cached("One", 0)];
    assert GetStep(Numbers, Some(10), None, states[1], logs[1], 1, 1, 1, answers[1], evictions[1], states[2], logs[2]);
  }

  /** With a time to live of 100, a get 200 later finds the entry stale and loads it again. */
  lemma {:induction false} CacheExpiration(answers: seq<Result<string, string>>, evictions: seq<map<int, Cached<string>>>, states: seq<map<int, Cached<string>>>, logs: seq<seq<int>>)
    requires GetTrace(Numbers, Some(10), Some(100), [1, 1], [0, 200], answers, evictions, states, logs)
    ensures answers == [Ok("One"), Ok("One")]
    ensures logs[2] == [1, 1]
  {
    AtMostIsCardinality(states[0].Keys, 9);
    assert GetStep(Numbers, Some(10), Some(100), states[0], logs[0], 1, 0, 0, answers[0], evictions[0], states[1], logs[1]);
    assert states[1] == map[1 := Cached("One", 0)];
    assert GetStep(Numbers, Some(10), Some(100), states[1], logs[1], 1, 200, 200, answers[1], evictions[1], states[2], logs[2]);
  }

  /**
   * Size 3 and no time to live: the fourth key evicts the least recently used key 1, so asking
   * for 1 again loads it a second time (and evicts 2); every other key is loaded once.
   */
  lemma {:induction false} CacheSize(answers: seq<Result<string, string>>, evictions: seq<map<int, Cached<string>>>, states: seq<map<int, Cached<string>>>, logs: seq<seq<int>>)
    requires GetTrace(Numbers, Some(3), None, [1, 2, 3, 4, 1], [0, 50, 100, 150, 200], answers, evictions, states, logs)
    ensures answers == [Ok("One"), Ok("Two"), Ok("Three"), Ok("Four"), Ok("One")]
    ensures logs[5] == [1, 2, 3, 4, 1]
    ensures states[5].Keys == {1, 3, 4}
  {
    var size := Some(3);
    MissBelowCapacity(Numbers, size, None, states[0], logs[0], 1, 0, 0, answers[0], evictions[0], states[1], logs[1]);
    assert states[1] == map[1 := Cached("One", 0)];
    MissBelowCapacity(Numbers, size, None, states[1], logs[1], 2, 50, 50, answers[1], evictions[1], states[2], logs[2]);
    assert states[2] == map[1 := Cached("One", 0), 2 := Cached("Two", 50)];
    MissBelowCapacity(Numbers, size, None, states[2], logs[2], 3, 100, 100, answers[2], evictions[2], states[3], logs[3]);
    assert states[3].Keys == {1, 2, 3};
    FourthKeyEvictsFirst(states[3], answers[3], evictions[3], states[4], logs[4]);
    FirstKeyAgainEvictsSecond(states[4], answers[4], evictions[4], states[5], logs[5]);
  }

  /** The fourth get of CacheSize: the cache is full and key 1 is the least recently used. */
  lemma FourthKeyEvictsFirst(before: map<int, Cached<string>>, r: Result<string, string>, evicted: map<int, Cached<string>>, after: map<int, Cached<string>>, loadsAfter: seq<int>)
    requires before.Keys == {1, 2, 3} && before[1].used == 0 && before[2].used == 50 && before[3].used == 100
    requires GetStep(Numbers, Some(3), None, before, [1, 2, 3], 4, 150, 150, r, evicted, after, loadsAfter)
    ensures r == Ok("Four") && loadsAfter == [1, 2, 3, 4]
    ensures after.Keys == {2, 3, 4} && after[2].used == 50 && after[3].used == 100 && after[4].used == 150
  {
    assert |before| == |before.Keys| == 3;
    MissEvictsOldest(Numbers, Some(3), None, before, [1, 2, 3], 4, 150, 150, r, evicted, after, loadsAfter, 1);
  }

  /** The fifth get of CacheSize: key 1 is gone, the cache is full again and key 2 is the oldest. */
  lemma FirstKeyAgainEvictsSecond(before: map<int, Cached<string>>, r: Result<string, string>, evicted: map<int, Cached<string>>, after: map<int, Cached<string>>, loadsAfter: seq<int>)
    requires before.Keys == {2, 3, 4} && before[2].used == 50 && before[3].used == 100 && before[4].used == 150
    requires GetStep(Numbers, Some(3), None, before, [1, 2, 3, 4], 1, 200, 200, r, evicted, after, loadsAfter)
    ensures r == Ok("One") && loadsAfter == [1, 2, 3, 4, 1]
    ensures after.Keys == {1, 3, 4}
  {
    assert |before| == |before.Keys| == 3;
    MissEvictsOldest(Numbers, Some(3), None, before, [1, 2, 3, 4], 1, 200, 200, r, evicted, after, loadsAfter, 2);
  }

  /**
   * Size 3 and a time to live of 100: three keys fill the cache, and 200 later the two keys asked
   * again are hits on stale entries, reloaded and restamped in place; nothing is evicted and the
   * third key, loaded once, keeps its old stamp.
   */
  lemma {:induction false} CacheSizeAndExpiration(answers: seq<Result<string, string>>, evictions: seq<map<int, Cached<string>>>, states: seq<map<int, Cached<string>>>, logs: seq<seq<int>>)
    requires GetTrace(Numbers, Some(3), Some(100), [1, 2, 3, 1, 2], [0, 0, 0, 200, 200], answers, evictions, states, logs)
    ensures answers == [Ok("One"), Ok("Two"), Ok("Three"), Ok("One"), Ok("Two")]
    ensures logs[5] == [1, 2, 3, 1, 2]
    ensures states[5] == map[1 := Cached("One", 200), 2 := Cached("Two", 200), 3 := Cached("Three", 0)]
  {
    var size, ttl := Some(3), Some(100);
    MissBelowCapacity(Numbers, size, ttl, states[0], logs[0], 1, 0, 0, answers[0], evictions[0], states[1], logs[1]);
    assert states[1] == map[1 := Cached("One", 0)];
    MissBelowCapacity(Numbers, size, ttl, states[1], logs[1], 2, 0, 0, answers[1], evictions[1], states[2], logs[2]);
    assert states[2] == map[1 := Cached("One", 0), 2 := Cached("Two", 0)];
    MissBelowCapacity(Numbers, size, ttl, states[2], logs[2], 3, 0, 0, answers[2], evictions[2], states[3], logs[3]);
    assert states[3] == map[1 := Cached("One", 0), 2 := Cached("Two", 0), 3 := Cached("Three", 0)];
    assert GetStep(Numbers, size, ttl, states[3], logs[3], 1, 200, 200, answers[3], evictions[3], states[4], logs[4]);
    assert states[4] == map[1 := Cached("One", 200), 2 := Cached("Two", 0), 3 := Cached("Three", 0)];
    assert GetStep(Numbers, size, ttl, states[4], logs[4], 2, 200, 200, answers[4], evictions[4], states[5], logs[5]);
  }
}
