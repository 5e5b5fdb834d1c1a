/**
 * The backend's persistent result cache: a keyed table of opaque values with
 * a creation time, an access count and a last-access time per row. Reads
 * expire rows older than the time-to-live and refresh live ones; writes first
 * evict the least recently accessed rows once the table is full, then insert
 * or replace. The database is the `table` field; the clock is a parameter.
 */
module Cache {
  import opened Wrappers

  type Key = string

  /** One row: the stored value and its bookkeeping, times on an integer clock (seconds). */
  datatype Entry<V> = Entry(value: V, createdAt: int, accessCount: nat, lastAccessed: int)

  /** The row a write produces: defaults for every column but key and value. */
  function FreshEntry<V>(value: V, now: int): Entry<V>
  {
    Entry(value, now, 0, now)
  }

  /** How a read that finds a live row leaves it: one more access, accessed now. */
  function Touched<V>(e: Entry<V>, now: int): Entry<V>
  {
    e.(accessCount := e.accessCount + 1, lastAccessed := now)
  }

  /** The read's test: more than `ttl` has passed since the row was written. */
  predicate Expired<V>(e: Entry<V>, now: int, ttl: int)
  {
    now - e.createdAt > ttl
  }

  /** What the start-up sweep keeps: the rows not created before `now - ttl`,
      which are exactly the rows a read would not find expired. */
  function Unexpired<V>(m: map<Key, Entry<V>>, now: int, ttl: int): (r: map<Key, Entry<V>>)
    ensures forall k :: k in r <==> k in m && !Expired(m[k], now, ttl)
    ensures forall k :: k in r ==> r[k] == m[k]
  {
    map k | k in m && !(m[k].createdAt < now - ttl) :: m[k]
  }

  /** Rows are taken in ascending order of last access: none kept was accessed before one removed. */
  ghost predicate LeastRecentlyAccessed<V>(m: map<Key, Entry<V>>, victims: set<Key>)
  {
    forall v, k :: v in victims && v in m && k in m && k !in victims ==> m[v].lastAccessed <= m[k].lastAccessed
  }

  function Min(a: int, b: int): int { if a <= b then a else b }

  /** How many rows a full table loses: `count - max_size + 10`, a few more
      than needed, but never more than there are. */
  function EvictionCount(count: nat, maxSize: int): (n: nat)
    requires count >= maxSize
    ensures n <= count
    ensures n == count || count - n == maxSize - 10
  {
    Min(count, count - maxSize + 10)
  }

  /** `victims` is a choice the eviction step may make on table `m`. Such a
      choice leaves the table alone below `max_size`, and otherwise leaves
      exactly `max_size - 10` rows, or none when there are not that many. */
  ghost function IsEviction<V>(m: map<Key, Entry<V>>, victims: set<Key>, maxSize: int): (b: bool)
    ensures b && |m| < maxSize ==> m - victims == m
    ensures b && |m| >= maxSize ==> |m - victims| == 0 || |m - victims| == maxSize - 10
  {
    victims <= m.Keys
    && (MapCardinality(m, victims);
        (|m| < maxSize ==> victims == {})
        && (|m| >= maxSize ==> |victims| == EvictionCount(|m|, maxSize) && LeastRecentlyAccessed(m, victims)))
  }

  lemma MapCardinality<V>(m: map<Key, Entry<V>>, s: set<Key>)
    requires s <= m.Keys
    ensures |m - s| == |m| - |s|
  {
    assert (m - s).Keys == m.Keys - s;
    assert |m.Keys - s| == |m.Keys| - |s|;
  }

  /** Eviction leaves room for one more row: at most `max_size - 1` remain. */
  lemma EvictionLeavesRoom<V>(m: map<Key, Entry<V>>, victims: set<Key>, maxSize: int)
    requires IsEviction(m, victims, maxSize)
    requires maxSize >= 1
    ensures |m - victims| <= maxSize - 1
  {
    MapCardinality(m, victims);
  }

  lemma InsertCardinality<V>(m: map<Key, Entry<V>>, key: Key, e: Entry<V>)
    ensures |m[key := e]| <= |m| + 1
  {
    if key in m {
      assert m[key := e].Keys == m.Keys;
    } else {
      assert m[key := e].Keys == m.Keys + {key};
    }
  }

  /** A write never leaves more than `max_size` rows (for a positive
      `max_size`), whether it adds a key or replaces one. */
  lemma WriteKeepsBound<V>(m: map<Key, Entry<V>>, victims: set<Key>, maxSize: int, key: Key, e: Entry<V>)
    requires IsEviction(m, victims, maxSize)
    requires maxSize >= 1
    ensures |(m - victims)[key := e]| <= maxSize
  {
    EvictionLeavesRoom(m, victims, maxSize);
    InsertCardinality(m - victims, key, e);
  }

  /** A freshly written key is the one key eviction can never take, and reads
      back its value until the time-to-live has passed. */
  lemma WriteThenRead<V>(m: map<Key, Entry<V>>, victims: set<Key>, maxSize: int, key: Key, value: V,
                         written: int, now: int, ttl: int)
    requires 0 <= now - written <= ttl
    ensures var after := (m - victims)[key := FreshEntry(value, written)];
            key in after && !Expired(after[key], now, ttl) && after[key].value == value
  {
  }

  lemma MapKeysCardinality<V>(m: map<Key, Entry<V>>)
    ensures |m.Keys| == |m|
  {
    MapCardinality(m, {});
    assert m - {} == m;
  }

  lemma SubsetCardinality(a: set<Key>, b: set<Key>)
    requires a <= b
    ensures |a| <= |b|
  {
    assert b == a + (b - a);
  }

  /** Some row of a non-empty set was accessed no later than every other. */
  lemma {:induction false} OldestExists<V>(m: map<Key, Entry<V>>, keys: set<Key>)
    requires keys != {} && keys <= m.Keys
    ensures exists k :: k in keys && forall j :: j in keys ==> m[k].lastAccessed <= m[j].lastAccessed
    decreases keys
  {
    var x :| x in keys;
    if keys != {x} {
      var rest := keys - {x};
      OldestExists(m, rest);
      var k :| k in rest && forall j :: j in rest ==> m[k].lastAccessed <= m[j].lastAccessed;
      if m[x].lastAccessed < m[k].lastAccessed {
        assert forall j :: j in keys ==> m[x].lastAccessed <= m[j].lastAccessed;
      } else {
        assert forall j :: j in keys ==> m[k].lastAccessed <= m[j].lastAccessed;
      }
    }
  }

  /** `SUM(access_count)` over the table (0 for an empty table). */
  ghost function TotalAccesses<V>(m: map<Key, Entry<V>>): (t: nat)
    ensures m == map[] ==> t == 0
    ensures forall k :: k in m ==> m[k].accessCount <= t
    decreases m.Keys
  {
    if m == map[] then 0
    else
      var k :| k in m;
      var rest := m - {k};
      assert forall j :: j in m && j != k ==> j in rest && rest[j] == m[j];
      m[k].accessCount + TotalAccesses(rest)
  }

  /** The sum does not depend on which row is taken out first. */
  lemma {:induction false} TotalAccessesRemove<V>(m: map<Key, Entry<V>>, k: Key)
    requires k in m
    ensures TotalAccesses(m) == m[k].accessCount + TotalAccesses(m - {k})
    decreases m.Keys
  {
    var j :| j in m && TotalAccesses(m) == m[j].accessCount + TotalAccesses(m - {j});
    if j != k {
      TotalAccessesRemove(m - {j}, k);
      TotalAccessesRemove(m - {k}, j);
      assert m - {j} - {k} == m - {k} - {j};
    }
  }

  /** A read of a live row adds exactly one to the total access count. */
  lemma ReadCountsOneAccess<V>(m: map<Key, Entry<V>>, key: Key, now: int)
    requires key in m
    ensures TotalAccesses(m[key := Touched(m[key], now)]) == TotalAccesses(m) + 1
  {
    var after := m[key := Touched(m[key], now)];
    TotalAccessesRemove(m, key);
    TotalAccessesRemove(after, key);
    assert after - {key} == m - {key};
  }

  /** The keys a list holds. */
  function KeySet(keys: seq<Key>): (s: set<Key>)
    ensures forall x :: x in s <==> x in keys
  {
    set x | x in keys
  }

  /** `SELECT key FROM cache ORDER BY last_accessed ASC LIMIT limit`: up to
      `limit` keys (every key if there are fewer), none of them accessed after
      a key left out. Rows accessed at the same time may come in any order. */
  method LeastRecentKeys<V>(m: map<Key, Entry<V>>, limit: int) returns (keys: seq<Key>)
    requires limit >= 0
    ensures KeySet(keys) <= m.Keys
    ensures |keys| == |KeySet(keys)| == Min(|m|, limit)
    ensures LeastRecentlyAccessed(m, KeySet(keys))
  {
    keys := [];
    ghost var chosen: set<Key> := {};
    var remaining := m.Keys;
    while |keys| < limit && remaining != {}
      invariant chosen <= m.Keys && remaining == m.Keys - chosen
      invariant chosen == KeySet(keys)
      invariant |chosen| == |keys| <= limit
      invariant LeastRecentlyAccessed(m, chosen)
      decreases remaining
    {
      OldestExists(m, remaining);
      var k :| k in remaining && forall j :: j in remaining ==> m[k].lastAccessed <= m[j].lastAccessed;
      keys := keys + [k];
      chosen := chosen + {k};
      remaining := remaining - {k};
    }
    assert |chosen| <= |m| by {
      MapKeysCardinality(m);
      SubsetCardinality(chosen, m.Keys);
    }
    assert remaining == {} ==> chosen == m.Keys;
  }

  class PersistentCache<V> {
    /** The `cache` table, by key. */
    var table: map<Key, Entry<V>>
    const maxSize: int
    /** The time-to-live in clock units: `ttl_hours` hours of seconds. */
    const ttl: int

    /** Opens the cache over the rows already stored and sweeps out the expired ones. */
    constructor (maxSize: int, ttlHours: int, stored: map<Key, Entry<V>>, now: int)
      ensures this.maxSize == maxSize && ttl == ttlHours * 3600
      ensures table == Unexpired(stored, now, ttl)
    {
      this.maxSize := maxSize;
      ttl := ttlHours * 3600;
      table := stored;
      new;
      CleanupExpired(now);
    }

    /** `get`: a missing key reads as nothing; an expired row is deleted and
        reads as nothing; a live row is returned and counted as accessed. */
    method Get(key: Key, now: int) returns (r: Option<V>)
      modifies this
      ensures key !in old(table) ==> r == None && table == old(table)
      ensures key in old(table) && Expired(old(table)[key], now, ttl) ==>
                r == None && table == old(table) - {key}
      ensures key in old(table) && !Expired(old(table)[key], now, ttl) ==>
                r == Some(old(table)[key].value) && table == old(table)[key := Touched(old(table)[key], now)]
    {
      if key !in table {
        return None;
      }
      var row := table[key];
      if now - row.createdAt > ttl {
        var _ := Delete(key);
        return None;
      }
      table := table[key := Touched(row, now)];
      r := Some(row.value);
    }

    /** `set`: evict if full, then insert the key with fresh bookkeeping,
        replacing any row it had. */
    method Set(key: Key, value: V, now: int) returns (ok: bool, ghost evicted: set<Key>)
      modifies this
      ensures ok
      ensures IsEviction(old(table), evicted, maxSize)
      ensures table == (old(table) - evicted)[key := FreshEntry(value, now)]
      ensures maxSize >= 1 ==> |table| <= maxSize
    {
      evicted := EvictIfNeeded();
      table := table[key := FreshEntry(value, now)];
      if maxSize >= 1 {
        WriteKeepsBound(old(table), evicted, maxSize, key, FreshEntry(value, now));
      }
      ok := true;
    }

    /** `delete`: the key's row goes, nothing else changes. */
    method Delete(key: Key) returns (ok: bool)
      modifies this
      ensures ok && table == old(table) - {key}
    {
      table := table - {key};
      ok := true;
    }

    /** `_evict_if_needed`: on a full table, select the `count - max_size + 10`
        least recently accessed keys (all of them if fewer), then delete them
        one by one. */
    method EvictIfNeeded() returns (ghost evicted: set<Key>)
      modifies this
      ensures IsEviction(old(table), evicted, maxSize)
      ensures table == old(table) - evicted
    {
      var count := |table|;
      if count < maxSize {
        return {};
      }
      var keysToDelete := LeastRecentKeys(table, count - maxSize + 10);
      evicted := KeySet(keysToDelete);
      DeleteEach(keysToDelete);
    }

    /** The loop `for key in keys_to_delete: DELETE ... WHERE key = ?`. */
    method DeleteEach(keys: seq<Key>)
      modifies this
      ensures table == old(table) - KeySet(keys)
    {
      for i := 0 to |keys|
        invariant table == old(table) - KeySet(keys[..i])
      {
        assert KeySet(keys[..i + 1]) == KeySet(keys[..i]) + {keys[i]} by {
          assert keys[..i + 1] == keys[..i] + [keys[i]];
        }
        table := table - {keys[i]};
      }
      assert keys[..|keys|] == keys;
    }

    /** `_cleanup_expired`: delete every row created before `now - ttl`. */
    method CleanupExpired(now: int)
      modifies this
      ensures table == Unexpired(old(table), now, ttl)
    {
      table := map k | k in table && !(table[k].createdAt < now - ttl) :: table[k];
    }

    /** `clear`: every row goes. */
    method Clear() returns (ok: bool)
      modifies this
      ensures ok && table == map[]
    {
      table := map[];
      ok := true;
    }

    /** The counts of `get_stats`: the number of rows and the sum of their access counts. */
    method Stats() returns (totalEntries: nat, totalAccesses: nat)
      ensures totalEntries == |table|
      ensures totalAccesses == TotalAccesses(table)
    {
      totalEntries := |table|;
      totalAccesses := 0;
      var rest := table;
      while rest != map[]
        invariant totalAccesses + TotalAccesses(rest) == TotalAccesses(table)
        decreases rest.Keys
      {
        var k :| k in rest;
        TotalAccessesRemove(rest, k);
        totalAccesses := totalAccesses + rest[k].accessCount;
        rest := rest - {k};
      }
    }
  }
}
