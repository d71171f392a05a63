/** The in-process cache: entries with an expiry, cleaned up lazily by the reader that finds one stale. */
module TtlCache {
  import opened EventModel

  datatype CacheEntry<+V> = CacheEntry(value: V, expiresAt: Time)

  type Entries<V> = map<string, CacheEntry<V>>

  /** now.After(expiresAt) is false: the last instant still counts. */
  predicate Unexpired<V>(e: CacheEntry<V>, now: Time) {
    now <= e.expiresAt
  }

  /** One critical section on the cache: a Set, a Delete, or the second half of a Get that found a stale entry. */
  datatype CacheOp<+V> = SetOp(key: string, value: V, at: Time) | DeleteOp(key: string) | CleanOp(key: string, at: Time)

  function ExecOp<V>(entries: Entries<V>, op: CacheOp<V>, ttl: int): Entries<V> {
    match op
    case SetOp(k, v, at) => entries[k := CacheEntry(v, at + ttl)]
    case DeleteOp(k) => entries - {k}
    case CleanOp(k, at) => if k in entries && !Unexpired(entries[k], at) then entries - {k} else entries
  }

  function ExecOps<V>(entries: Entries<V>, ops: seq<CacheOp<V>>, ttl: int): Entries<V>
    decreases |ops|
  {
    if ops == [] then entries else ExecOp(ExecOps(entries, ops[..|ops| - 1], ttl), ops[|ops| - 1], ttl)
  }

  /** The i-th operation set this key, and nothing after it set, deleted or found it expired. */
  ghost predicate LastSet<V>(ops: seq<CacheOp<V>>, i: int, key: string, ttl: int) {
    && 0 <= i < |ops| && ops[i].SetOp? && ops[i].key == key
    && forall j :: i < j < |ops| && ops[j].key == key ==> ops[j].CleanOp? && ops[j].at <= ops[i].at + ttl
  }

  /** The cache holds for a key exactly the latest Set that was neither deleted nor cleaned up after its expiry. */
  lemma {:induction false} EntryIsLatestSet<V>(ops: seq<CacheOp<V>>, key: string, ttl: int)
    ensures key in ExecOps(map[], ops, ttl) <==> exists i :: LastSet(ops, i, key, ttl)
    ensures forall i :: LastSet(ops, i, key, ttl) ==>
              key in ExecOps(map[], ops, ttl)
              && ExecOps(map[], ops, ttl)[key] == CacheEntry(ops[i].value, ops[i].at + ttl)
    decreases |ops|
  {
    if ops == [] {
    } else {
      var n := |ops| - 1;
      var init := ops[..n];
      EntryIsLatestSet(init, key, ttl);
      if ops[n].key == key && ops[n].SetOp? {
        assert LastSet(ops, n, key, ttl);
      } else {
        forall i | 0 <= i < n ensures LastSet(ops, i, key, ttl) <==>
            LastSet(init, i, key, ttl) && (ops[n].key == key ==> ops[n].CleanOp? && ops[n].at <= ops[i].at + ttl)
        {
          assert init[i] == ops[i];
          assert forall j :: i < j < n ==> init[j] == ops[j];
        }
      }
    }
  }

  class TTLCache<V> {
    var entries: Entries<V>
    const ttl: int

    constructor (ttl: int)
      ensures entries == map[] && this.ttl == ttl
    {
      entries := map[];
      this.ttl := ttl;
    }

    /**
     * Get reads under the read lock, tests the expiry, and only for a stale entry takes the write lock and
     * tests again; other callers may get in between.
     */
    method Get(key: string, now: Time, others: seq<CacheOp<V>>, later: Time) returns (hit: Option<V>)
      modifies this
      ensures hit == if key in old(entries) && Unexpired(old(entries)[key], now) then Some(old(entries)[key].value)
              else None
      ensures key !in old(entries) || Unexpired(old(entries)[key], now) ==> entries == old(entries)
      ensures key in old(entries) && !Unexpired(old(entries)[key], now) ==>
                entries == ExecOp(ExecOps(old(entries), others, ttl), CleanOp(key, later), ttl)
      ensures key in old(entries) && !Unexpired(old(entries)[key], now) ==>
                var mid := ExecOps(old(entries), others, ttl);
                (forall k :: k in mid && (k != key || Unexpired(mid[k], later)) ==>
                   k in entries && entries[k] == mid[k]) &&
                (forall k :: k in entries ==> k in mid && (k != key || Unexpired(mid[k], later)))
    {
      if key !in entries {
        return None;
      }
      var entry := entries[key];
      if now > entry.expiresAt {
        entries := ExecOps(entries, others, ttl);
        if key in entries && later > entries[key].expiresAt {
          entries := entries - {key};
        }
        return None;
      }
      return Some(entry.value);
    }

    method Set(key: string, value: V, now: Time)
      modifies this
      ensures entries == ExecOp(old(entries), SetOp(key, value, now), ttl)
    {
      entries := entries[key := CacheEntry(value, now + ttl)];
    }

    method Delete(key: string)
      modifies this
      ensures entries == ExecOp(old(entries), DeleteOp(key), ttl)
    {
      entries := entries - {key};
    }
  }
}
