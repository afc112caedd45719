/** The in-memory cache with per-entry expiry times. Time is the caller's
    clock reading `now`, in seconds; an entry is live while `now` is before its
    expiry time and is treated as absent from then on, whether or not the
    sweep has removed it yet. */
module Cache {
  import opened Common
  import opened Patterns

  datatype Entry<V> = Entry(value: V, expiresAt: real)

  type Store<V> = map<string, Entry<V>>

  /** What a reader sees for `key` at `now`: the value of a live entry. */
  function Lookup<V>(c: Store<V>, key: string, now: real): Option<V> {
    if key in c && now < c[key].expiresAt then Some(c[key].value) else None
  }

  /** The store after a `get` at `now`: an expired entry for `key` is dropped. */
  function AfterGet<V>(c: Store<V>, key: string, now: real): Store<V> {
    if key in c && c[key].expiresAt <= now then c - {key} else c
  }

  function ExpiredKeys<V>(c: Store<V>, now: real): set<string> {
    set k | k in c && c[k].expiresAt <= now
  }

  function LiveKeys<V>(c: Store<V>, now: real): set<string> {
    set k | k in c && now < c[k].expiresAt
  }

  /** The store after a sweep at `now`: only the live entries. */
  function Swept<V>(c: Store<V>, now: real): Store<V> {
    map k | k in c && now < c[k].expiresAt :: c[k]
  }

  function MatchingKeys<V>(c: Store<V>, rx: Regex): set<string> {
    set k | k in c && Matches(rx, k)
  }

  /** Removing an expired entry on read is invisible to every reader. */
  lemma GetEvictionInvisible<V>(c: Store<V>, key: string, now: real, other: string)
    ensures Lookup(AfterGet(c, key, now), other, now) == Lookup(c, other, now)
    ensures AfterGet(c, key, now).Keys <= c.Keys
  {
  }

  /** Once expired, an entry stays absent at every later time. */
  lemma ExpiryIsFinal<V>(c: Store<V>, key: string, now: real, later: real)
    requires key in c && c[key].expiresAt <= now <= later
    ensures Lookup(c, key, later) == None
  {
  }

  /** A `set` is read back until its time-to-live has passed, and not from
      then on; no other key's reading changes. */
  lemma SetThenLookup<V>(c: Store<V>, key: string, v: V, ttl: int, now: real, t: real, other: string)
    requires other != key
    ensures var c' := c[key := Entry(v, now + ttl as real)];
            && (t < now + ttl as real ==> Lookup(c', key, t) == Some(v))
            && (now + ttl as real <= t ==> Lookup(c', key, t) == None)
            && Lookup(c', other, t) == Lookup(c, other, t)
  {
  }

  /** The sweep removes exactly the expired entries and keeps the live ones
      as they were. */
  lemma {:induction false} SweptRemovesExactlyExpired<V>(c: Store<V>, now: real)
    ensures Swept(c, now).Keys == c.Keys - ExpiredKeys(c, now) == LiveKeys(c, now)
    ensures forall k :: k in Swept(c, now) ==> Swept(c, now)[k] == c[k]
    ensures ExpiredKeys(Swept(c, now), now) == {}
  {
    var s := Swept(c, now);
    assert s.Keys == LiveKeys(c, now);
    assert c.Keys - ExpiredKeys(c, now) == LiveKeys(c, now);
  }

  /** Sweeping twice at the same time is sweeping once. */
  lemma {:induction false} SweepIdempotent<V>(c: Store<V>, now: real)
    ensures Swept(Swept(c, now), now) == Swept(c, now)
  {
    var s := Swept(c, now);
    assert Swept(s, now).Keys == s.Keys;
  }

  /** Readers cannot tell whether the sweep ran. */
  lemma SweepInvisible<V>(c: Store<V>, key: string, now: real)
    ensures Lookup(Swept(c, now), key, now) == Lookup(c, key, now)
  {
  }

  /** Every stored entry is either live or expired. */
  lemma {:induction false} LiveAndExpiredPartition<V>(c: Store<V>, now: real)
    ensures LiveKeys(c, now) !! ExpiredKeys(c, now)
    ensures LiveKeys(c, now) + ExpiredKeys(c, now) == c.Keys
    ensures |LiveKeys(c, now)| + |ExpiredKeys(c, now)| == |c|
  {
    var live, expired := LiveKeys(c, now), ExpiredKeys(c, now);
    assert live + expired == c.Keys;
    assert |live + expired| == |live| + |expired|;
    assert |c.Keys| == |c|;
  }

  /** What `get_stats` counts (its memory estimate aside). */
  datatype CacheStats = CacheStats(totalEntries: nat, activeEntries: nat, expiredEntries: nat, cleanupInterval: int)

  function StatsOf<V>(c: Store<V>, now: real, cleanupInterval: int): (s: CacheStats)
    ensures s.totalEntries == |c|
    ensures s.expiredEntries == |ExpiredKeys(c, now)|
    ensures s.activeEntries == |LiveKeys(c, now)|
    ensures s.activeEntries + s.expiredEntries == s.totalEntries
  {
    LiveAndExpiredPartition(c, now);
    var expired := |ExpiredKeys(c, now)|;
    CacheStats(|c|, |c| - expired, expired, cleanupInterval)
  }

  class CacheManager<V> {
    var entries: Store<V>
    const cleanupInterval: int

    /** A new, empty cache. The background sweep is not modelled: callers
        invoke CleanupExpired themselves. */
    constructor (cleanupInterval: int)
      ensures entries == map[] && this.cleanupInterval == cleanupInterval
    {
      entries := map[];
      this.cleanupInterval := cleanupInterval;
    }

    method CleanupExpired(now: real)
      modifies this
      ensures entries == Swept(old(entries), now)
    {
      // collect the expired keys, then delete them
      var expiredKeys: seq<string> := [];
      var unvisited := entries.Keys;
      while unvisited != {}
        invariant unvisited <= entries.Keys
        invariant forall k :: k in expiredKeys <==> k in entries.Keys - unvisited && entries[k].expiresAt <= now
        invariant Distinct(expiredKeys)
        decreases unvisited
      {
        var key :| key in unvisited;
        if entries[key].expiresAt <= now {
          expiredKeys := expiredKeys + [key];
        }
        unvisited := unvisited - {key};
      }
      assert forall k :: k in expiredKeys <==> k in ExpiredKeys(entries, now);
      var i := 0;
      while i < |expiredKeys|
        invariant i <= |expiredKeys|
        invariant entries == old(entries) - set j | 0 <= j < i :: expiredKeys[j]
      {
        entries := entries - {expiredKeys[i]};
        i := i + 1;
      }
      assert (set j | 0 <= j < i :: expiredKeys[j]) == ExpiredKeys(old(entries), now);
      assert entries == Swept(old(entries), now);
    }

    method Get(key: string, now: real) returns (r: Option<V>)
      modifies this
      ensures r == Lookup(old(entries), key, now)
      ensures entries == AfterGet(old(entries), key, now)
    {
      if key !in entries {
        return None;
      }
      var entry := entries[key];
      if entry.expiresAt <= now {
        entries := entries - {key};
        return None;
      }
      return Some(entry.value);
    }

    method Set(key: string, value: V, ttl: int, now: real)
      modifies this
      ensures entries == old(entries)[key := Entry(value, now + ttl as real)]
    {
      var expiresAt := now + ttl as real;
      entries := entries[key := Entry(value, expiresAt)];
    }

    /** Reports whether `key` was stored, expired or not. */
    method Delete(key: string) returns (present: bool)
      modifies this
      ensures present == (key in old(entries))
      ensures entries == old(entries) - {key}
    {
      if key in entries {
        entries := entries - {key};
        return true;
      }
      return false;
    }

    /** Without a pattern, empties the cache; with one, removes exactly the
        keys it matches. A malformed pattern fails before anything is removed. */
    method Clear(pattern: Option<string>) returns (r: Result<nat, PatternError>)
      modifies this
      ensures pattern.None? ==> r == Ok(|old(entries)|) && entries == map[]
      ensures pattern.Some? && Compile(pattern.value).Err? ==>
                r == Err(Compile(pattern.value).error) && entries == old(entries)
      ensures pattern.Some? && Compile(pattern.value).Ok? ==>
                var doomed := MatchingKeys(old(entries), Compile(pattern.value).value);
                r == Ok(|doomed|) && entries == old(entries) - doomed
    {
      if pattern.None? {
        var count := |entries|;
        entries := map[];
        return Ok(count);
      }
      var compiled := Compile(pattern.value);
      if compiled.Err? {
        return Err(compiled.error);
      }
      var regex := compiled.value;
      var keysToDelete := set k | k in entries && Matches(regex, k);
      var remaining := keysToDelete;
      while remaining != {}
        invariant remaining <= keysToDelete
        invariant entries == old(entries) - (keysToDelete - remaining)
        decreases remaining
      {
        var key :| key in remaining;
        entries := entries - {key};
        remaining := remaining - {key};
      }
      return Ok(|keysToDelete|);
    }

    function GetStats(now: real): (s: CacheStats)
      reads this
      ensures s.totalEntries == |entries|
      ensures s.activeEntries + s.expiredEntries == s.totalEntries
      ensures s.expiredEntries == |ExpiredKeys(entries, now)|
    {
      StatsOf(entries, now, cleanupInterval)
    }

    /** A `get` that reports whether it returned something other than None.
        `isNone` tells which stored values are Python's None: a live entry
        holding None reads as absent. */
    method Exists(key: string, now: real, isNone: V -> bool) returns (found: bool)
      modifies this
      ensures found <==> Lookup(old(entries), key, now).Some? && !isNone(Lookup(old(entries), key, now).value)
      ensures entries == AfterGet(old(entries), key, now)
    {
      var r := Get(key, now);
      found := r.Some? && !isNone(r.value);
    }

    /** Gives a live entry a new time-to-live; refuses an absent or expired
        one without removing it. */
    method Touch(key: string, ttl: int, now: real) returns (ok: bool)
      modifies this
      ensures ok == Lookup(old(entries), key, now).Some?
      ensures ok ==> entries == old(entries)[key := Entry(old(entries)[key].value, now + ttl as real)]
      ensures !ok ==> entries == old(entries)
    {
      if key !in entries || entries[key].expiresAt <= now {
        return false;
      }
      var entry := entries[key];
      entries := entries[key := entry.(expiresAt := now + ttl as real)];
      return true;
    }

    /** The stored keys, expired ones included, each once; with a pattern only
        the matching ones. */
    method GetKeys(pattern: Option<string>) returns (r: Result<seq<string>, PatternError>)
      ensures pattern.None? ==> r.Ok? && Distinct(r.value) && forall k :: k in r.value <==> k in entries
      ensures pattern.Some? && Compile(pattern.value).Err? ==> r == Err(Compile(pattern.value).error)
      ensures pattern.Some? && Compile(pattern.value).Ok? ==>
                r.Ok? && Distinct(r.value) &&
                forall k :: k in r.value <==> k in MatchingKeys(entries, Compile(pattern.value).value)
    {
      var selected: set<string>;
      if pattern.None? {
        selected := entries.Keys;
      } else {
        var compiled := Compile(pattern.value);
        if compiled.Err? {
          return Err(compiled.error);
        }
        var regex := compiled.value;
        selected := set k | k in entries && Matches(regex, k);
      }
      var keys: seq<string> := [];
      var unvisited := selected;
      while unvisited != {}
        invariant unvisited <= selected
        invariant forall k :: k in keys <==> k in selected - unvisited
        invariant Distinct(keys)
        decreases unvisited
      {
        var key :| key in unvisited;
        assert key !in keys;
        keys := keys + [key];
        unvisited := unvisited - {key};
      }
      return Ok(keys);
    }

    /** The map-clearing part of `shutdown`. */
    method Shutdown()
      modifies this
      ensures entries == map[]
    {
      entries := map[];
    }
  }
}
