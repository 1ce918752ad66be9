/**
 * The expiring key/value store of pkg/job/ttlmap.go.
 *
 * Each entry remembers the Unix second at which it was last written or read.
 * The ticker goroutine started by `NewTTLMap` becomes an explicit `Sweep(now)`
 * call, and every operation that reads the clock takes the current second as
 * `now`. `Get` checks no stamp: an entry past its TTL stays readable until the
 * next sweep, and reading it refreshes it.
 */
module TTLStore {
  import opened Wrappers

  /** A stored value together with the second it was last accessed. */
  datatype Item<V> = Item(value: V, lastAccess: int)

  /** Nanoseconds per second, the unit of Go's time.Duration. */
  const NanosPerSecond: int := 1_000_000_000

  /** Go's `int64(d.Seconds())`: whole seconds of a duration, truncated toward zero. */
  function TruncSeconds(nanos: int): (s: int)
    ensures nanos >= 0 ==> 0 <= s * NanosPerSecond <= nanos < (s + 1) * NanosPerSecond
    ensures nanos < 0 ==> (s - 1) * NanosPerSecond < nanos <= s * NanosPerSecond <= 0
  {
    if nanos >= 0 then nanos / NanosPerSecond else -((-nanos) / NanosPerSecond)
  }

  /** An entry is expired at `now` when its last access plus the TTL lies before `now`. */
  predicate Expired<V>(it: Item<V>, now: int, ttl: int)
  {
    it.lastAccess + ttl < now
  }

  /** The entries that a sweep at `now` keeps. */
  function Unexpired<V>(m: map<string, Item<V>>, now: int, ttl: int): (r: map<string, Item<V>>)
    ensures forall k :: k in r ==> r[k].lastAccess + ttl >= now
    ensures forall k :: k in m && !Expired(m[k], now, ttl) ==> k in r && r[k] == m[k]
    ensures forall k :: k in m && Expired(m[k], now, ttl) ==> k !in r
    ensures r.Keys <= m.Keys
  {
    map k | k in m && !Expired(m[k], now, ttl) :: m[k]
  }

  /** The values of the store without their timestamps. */
  function Values<V>(m: map<string, Item<V>>): (r: map<string, V>)
    ensures r.Keys == m.Keys
    ensures forall k :: k in r ==> r[k] == m[k].value
  {
    map k | k in m :: m[k].value
  }

  /** A read resets the eviction clock: an entry read at `now` survives every sweep up to `now + ttl`. */
  lemma ReadSurvivesSweep<V>(m: map<string, Item<V>>, k: string, now: int, now': int, ttl: int)
    requires k in m && now' <= now + ttl
    ensures k in Unexpired(m[k := Item(m[k].value, now)], now', ttl)
    ensures Unexpired(m[k := Item(m[k].value, now)], now', ttl)[k] == Item(m[k].value, now)
  {
  }

  /** An entry idle for longer than the TTL is gone after a sweep. */
  lemma ExpiredIsAbsent<V>(m: map<string, Item<V>>, k: string, now: int, ttl: int)
    requires k in m && m[k].lastAccess + ttl < now
    ensures k !in Unexpired(m, now, ttl)
  {
  }

  class TTLMap<V> {
    var m: map<string, Item<V>>
    /** The configured duration in nanoseconds. */
    const maxTTL: int
    /** The duration in whole seconds, against which entries are compared. */
    const maxTTLInSeconds: int

    ghost predicate Valid()
    {
      maxTTLInSeconds == TruncSeconds(maxTTL)
    }

    /** NewTTLMap: an empty store (the capacity hint has no observable effect). */
    constructor (maxTTL: int)
      ensures Valid()
      ensures this.maxTTL == maxTTL
      ensures m == map[] && Len() == 0
    {
      this.maxTTL := maxTTL;
      this.maxTTLInSeconds := TruncSeconds(maxTTL);
      m := map[];
    }

    /** Number of entries. */
    function Len(): (n: nat)
      reads this
      ensures n == |m.Keys|
      ensures n == 0 <==> m == map[]
    {
      |m|
    }

    /** Inserts `v` under `k`, stamped `now`, only if `k` is absent: the first write wins. */
    method Put(k: string, v: V, now: int)
      modifies this
      ensures k !in old(m) ==> m == old(m)[k := Item(v, now)]
      ensures k in old(m) ==> m == old(m)
    {
      if k !in m {
        m := m[k := Item(v, now)];
      }
    }

    /** Looks `k` up; a hit refreshes that entry's stamp to `now` and nothing else. */
    method Get(k: string, now: int) returns (r: Option<V>)
      modifies this
      ensures k in old(m) ==> r == Some(old(m)[k].value) && m == old(m)[k := Item(old(m)[k].value, now)]
      ensures k !in old(m) ==> r == None && m == old(m)
    {
      if k in m {
        var it := m[k];
        m := m[k := Item(it.value, now)];
        return Some(it.value);
      }
      return None;
    }

    /** A copy of the store: the same keys and values, timestamps untouched. */
    method Map() returns (r: map<string, V>)
      ensures r == Values(m)
      ensures r.Keys == m.Keys && |r| == Len()
      ensures forall k :: k in r ==> r[k] == m[k].value
    {
      r := map[];
      var todo := m.Keys;
      while todo != {}
        invariant todo <= m.Keys
        invariant r == map k | k in m && k !in todo :: m[k].value
        decreases todo
      {
        var k :| k in todo;
        r := r[k := m[k].value];
        todo := todo - {k};
      }
      assert r.Keys == m.Keys;
      assert |r| == |r.Keys|;
      assert |m| == |m.Keys|;
    }

    /**
     * One tick of the background sweep: deletes exactly the entries whose last
     * access plus the TTL (in seconds) lies before `now`. A ticker only exists when
     * `maxTTL / 10` is a positive period, i.e. `maxTTL >= 10` nanoseconds.
     */
    method Sweep(now: int)
      requires Valid() && maxTTL >= 10
      modifies this
      ensures m == Unexpired(old(m), now, maxTTLInSeconds)
      ensures forall k :: k in m ==> m[k].lastAccess + maxTTLInSeconds >= now
    {
      var todo := m.Keys;
      ghost var start := m;
      while todo != {}
        invariant todo <= start.Keys
        invariant m == map k | k in start && (k in todo || !Expired(start[k], now, maxTTLInSeconds)) :: start[k]
        decreases todo
      {
        var k :| k in todo;
        if m[k].lastAccess + maxTTLInSeconds < now {
          m := m - {k};
        }
        todo := todo - {k};
      }
    }
  }
}
