/**
 The shield as an object: an insertion-ordered block cache and counters, changed by every call.
 */
module InMemoryShield {
  import opened Entries
  import opened MemoryTable
  import opened MemoryStore
  import opened ShieldSpec

  datatype Metrics = Metrics(storeCallsSaved: nat, storeCalls: nat, totalKeysBlocked: nat, totalKeysExpired: nat,
    totalKeysEvicted: nat)

  class InMemoryShield {
    const inner: MemoryStore
    const opts: Options
    var order: seq<Key>
    var cache: map<Key, Cached>
    var metrics: Metrics

    ghost function View(): (s: Shield)
      reads this, inner
    {
      Shield(order, cache, inner.View())
    }

    ghost predicate Valid()
      reads this, inner
    {
      inner.Valid() && CacheOk(View())
    }

    constructor (inner: MemoryStore, opts: Options)
      requires inner.Valid()
      ensures Valid() && this.inner == inner && this.opts == opts && View() == Shield([], map[], inner.View())
    {
      this.inner, this.opts, order, cache := inner, opts, [], map[];
      metrics := Metrics(0, 0, 0, 0, 0);
    }

    method CacheDelete(k: Key) returns (removed: bool)
      requires Valid()
      modifies this`order, this`cache
      ensures Valid() && View() == Unshield(old(View()), k) && removed == (k in old(cache))
    {
      hide Ok;
      WithoutMembers(order, k);
      removed := k in cache;
      if removed {
        order, cache := Without(order, k), cache - {k};
      }
    }

    method CacheBlock(k: Key, res: Result, now: int)
      requires Valid()
      modifies this
      ensures Valid() && View() == ShieldSpec.CacheBlock(opts, old(View()), k, res, now)
      ensures metrics.storeCalls == old(metrics.storeCalls) && metrics.storeCallsSaved == old(metrics.storeCallsSaved)
    {
      hide Ok;
      var expiresAt :=
        if opts.blockDurationMs.Some? && opts.blockDurationMs.value > 0 then now + opts.blockDurationMs.value
        else res.resetTime;
      if opts.maxBlockedKeys > 0 && |order| >= opts.maxBlockedKeys && order != [] {
        var _ := CacheDelete(order[0]);
        metrics := metrics.(totalKeysEvicted := metrics.totalKeysEvicted + 1);
      }
      order := if k in cache then order else order + [k];
      cache := cache[k := Cached(expiresAt, Result(res.totalHits, Max(0, res.remaining), res.resetTime, true))];
      metrics := metrics.(totalKeysBlocked := metrics.totalKeysBlocked + 1);
    }

    /** Every call is answered by the cache or by the store, and counted as one of the two. */
    method Increment(k: Key, override: Option<int>, cost: int, now: int) returns (r: Result, shielded: bool)
      requires Valid()
      modifies this, inner
      ensures Valid()
      ensures (View(), r, shielded) == Incremented(inner.lim, opts, old(View()), k, override, CostOf(cost), now)
      ensures shielded ==> inner.View() == old(inner.View())
      ensures metrics.storeCallsSaved == old(metrics.storeCallsSaved) + if shielded then 1 else 0
      ensures metrics.storeCalls == old(metrics.storeCalls) + if shielded then 0 else 1
    {
      hide Ok, IncrementKey, CacheOk;
      if k in cache {
        if now < cache[k].expiresAt {
          metrics := metrics.(storeCallsSaved := metrics.storeCallsSaved + 1);
          return cache[k].result, true;
        }
        var _ := CacheDelete(k);
        metrics := metrics.(totalKeysExpired := metrics.totalKeysExpired + 1);
      }
      metrics := metrics.(storeCalls := metrics.storeCalls + 1);
      SameCache();
      r := inner.Increment(k, override, cost, now);
      SameCache();
      if r.totalHits >= opts.blockOnConsumed {
        CacheBlock(k, r, now);
      }
      shielded := false;
    }

    lemma SameCache()
      ensures forall m :: CacheOk(View()) == CacheOk(View().(inner := m))
    {
    }

    method Sweep(now: int) returns (swept: nat)
      requires Valid()
      modifies this
      ensures Valid() && View() == Swept(old(View()), now)
    {
      hide Ok, CacheOk;
      swept := 0;
      var keys := order;
      var i := 0;
      while i < |keys|
        invariant 0 <= i <= |keys| && Valid()
        invariant View() == SweptAll(old(View()), keys[..i], now)
      {
        assert keys[..i + 1][..i] == keys[..i];
        var k := keys[i];
        if k in cache && now >= cache[k].expiresAt {
          var _ := CacheDelete(k);
          metrics := metrics.(totalKeysExpired := metrics.totalKeysExpired + 1);
          swept := swept + 1;
        }
        i := i + 1;
      }
      assert keys[..i] == keys;
    }

    method Decrement(k: Key, cost: int, removeNewest: bool)
      requires Valid()
      modifies this, inner
      ensures Valid() && View() == Decremented(inner.lim, old(View()), k, CostOf(cost), removeNewest)
    {
      hide Ok, CacheOk, DecrementKey;
      var _ := CacheDelete(k);
      SameCache();
      inner.Decrement(k, cost, removeNewest);
      SameCache();
    }

    method Get(k: Key, now: int) returns (r: Option<Result>)
      requires Valid()
      modifies inner
      ensures Valid() && (View(), r) == Got(inner.lim, old(View()), k, now)
    {
      hide Ok, CacheOk, GetKey;
      if k in cache && now < cache[k].expiresAt {
        return Some(cache[k].result);
      }
      SameCache();
      r := inner.Get(k, now);
      SameCache();
    }

    method ClearShield()
      requires Valid()
      modifies this`order, this`cache
      ensures Valid() && View() == old(View()).(order := [], cache := map[])
    {
      order, cache := [], map[];
    }
  }
}
