/**
 The block cache in front of a store: keys that used up their quota are answered from memory
 until their window ends. The cache and the store behind it, as values.
 */
module ShieldSpec {
  import opened Entries
  import opened MemoryTable

  datatype Options = Options(blockOnConsumed: int, blockDurationMs: Option<int>, maxBlockedKeys: nat)

  datatype Cached = Cached(expiresAt: int, result: Result)

  /** `order` is the cache's insertion order; `inner` is the store behind the shield. */
  datatype Shield = Shield(order: seq<Key>, cache: map<Key, Cached>, inner: Mem)

  predicate CacheOk(s: Shield) {
    && (forall k :: k in s.order ==> k in s.cache)
    && (forall k :: k in s.cache ==> k in s.order)
  }

  function Unshield(s: Shield, k: Key): (r: Shield)
    ensures r.inner == s.inner && r.cache == s.cache - {k}
    ensures CacheOk(s) ==> CacheOk(r)
  {
    WithoutMembers(s.order, k);
    if k in s.cache then s.(order := Without(s.order, k), cache := s.cache - {k}) else s
  }

  predicate Live(s: Shield, k: Key, now: int) {
    k in s.cache && now < s.cache[k].expiresAt
  }

  /** A full cache drops its oldest key first. */
  function CacheBlock(opts: Options, s: Shield, k: Key, res: Result, now: int): (r: Shield)
    requires CacheOk(s)
    ensures CacheOk(r) && r.inner == s.inner
  {
    var expiresAt := if opts.blockDurationMs.Some? && opts.blockDurationMs.value > 0
                     then now + opts.blockDurationMs.value else res.resetTime;
    var roomy := if opts.maxBlockedKeys > 0 && |s.order| >= opts.maxBlockedKeys && s.order != []
                 then Unshield(s, s.order[0]) else s;
    var entry := Cached(expiresAt, Result(res.totalHits, Max(0, res.remaining), res.resetTime, true));
    roomy.(order := if k in roomy.cache then roomy.order else roomy.order + [k], cache := roomy.cache[k := entry])
  }

  /** The hot path: the answer, and whether it came from the cache. */
  ghost function Incremented(lim: Limits, opts: Options, s: Shield, k: Key, override: Option<int>, n: Cost,
      now: int): (r: (Shield, Result, bool))
    requires Ok(lim, s.inner) && CacheOk(s)
    ensures Ok(lim, r.0.inner) && CacheOk(r.0)
  {
    if Live(s, k, now) then (s, s.cache[k].result, true)
    else
      var missed := Unshield(s, k);
      IncrementKeyOk(lim, s.inner, k, override, n, now);
      var (inner, res) := IncrementKey(lim, s.inner, k, override, n, now);
      var called := missed.(inner := inner);
      (if res.totalHits >= opts.blockOnConsumed then CacheBlock(opts, called, k, res, now) else called, res, false)
  }

  /** Remove the expired keys, in cache order. */
  function SweptAll(s: Shield, keys: seq<Key>, now: int): (r: Shield)
    ensures r.inner == s.inner && (CacheOk(s) ==> CacheOk(r))
  {
    if keys == [] then s
    else
      var prev := SweptAll(s, keys[..|keys| - 1], now);
      var k := keys[|keys| - 1];
      if k in prev.cache && now >= prev.cache[k].expiresAt then Unshield(prev, k) else prev
  }

  function Swept(s: Shield, now: int): (r: Shield)
    ensures r.inner == s.inner && (CacheOk(s) ==> CacheOk(r))
  {
    SweptAll(s, s.order, now)
  }

  lemma {:induction false} SweptAllDropsExpired(s: Shield, keys: seq<Key>, now: int)
    ensures var r := SweptAll(s, keys, now);
            && (forall k :: k in r.cache ==> k in s.cache && r.cache[k] == s.cache[k])
            && (forall k :: k in s.cache && now < s.cache[k].expiresAt ==> k in r.cache)
            && (forall k :: k in keys && k in r.cache ==> now < r.cache[k].expiresAt)
  {
    if keys != [] {
      SweptAllDropsExpired(s, keys[..|keys| - 1], now);
      assert keys == keys[..|keys| - 1] + [keys[|keys| - 1]];
    }
  }

  /** A sweep drops exactly the expired keys. */
  lemma SweepDropsExactlyExpired(s: Shield, now: int)
    requires CacheOk(s)
    ensures forall k :: k in Swept(s, now).cache <==> Live(s, k, now)
    ensures forall k :: k in Swept(s, now).cache ==> k in s.cache && Swept(s, now).cache[k] == s.cache[k]
  {
    SweptAllDropsExpired(s, s.order, now);
  }

  ghost function Decremented(lim: Limits, s: Shield, k: Key, n: Cost, removeNewest: bool): (r: Shield)
    requires Ok(lim, s.inner) && CacheOk(s)
    ensures Ok(lim, r.inner) && CacheOk(r)
  {
    OkEntry(lim, s.inner, k);
    DecrementKeyOk(lim, s.inner, k, n, removeNewest);
    Unshield(s, k).(inner := DecrementKey(lim, s.inner, k, n, removeNewest))
  }

  /** A read prefers the cache. */
  ghost function Got(lim: Limits, s: Shield, k: Key, now: int): (r: (Shield, Option<Result>))
    requires Ok(lim, s.inner) && CacheOk(s)
    ensures Ok(lim, r.0.inner) && CacheOk(r.0)
  {
    OkEntry(lim, s.inner, k);
    GetKeyOk(lim, s.inner, k, now);
    if Live(s, k, now) then (s, Some(s.cache[k].result))
    else
      var (inner, seen) := GetKey(lim, s.inner, k, now);
      (s.(inner := inner), seen)
  }
}
