/**
 A store that is asked for no more keys than it may hold never evicts a live one.
 */
module FewKeys {
  import opened Entries
  import opened MemoryTable

  /** The keys of an operation, if it has one. */
  function KeyOf(op: StoreOp): (k: Option<Key>) {
    match op
    case Inc(k, _, _, _) => Some(k)
    case Dec(k, _, _) => Some(k)
    case Reset(k, _) => Some(k)
    case Get(k, _) => Some(k)
    case SetHits(k, _, _, _) => Some(k)
    case Delete(k) => Some(k)
    case _ => None
  }

  ghost predicate Roomy(lim: Limits, keys: set<Key>) {
    lim.maxKeys == 0 || |keys| <= lim.maxKeys
  }

  /** Only these keys, and no live key ever dropped. */
  ghost predicate Holds(m: Mem, keys: set<Key>) {
    (forall k :: k in m.entries ==> k in keys) && (forall k :: Spared(m, k))
  }

  lemma {:induction false} DistinctSize(s: seq<Key>, keys: set<Key>)
    requires Distinct(s) && forall k :: k in s ==> k in keys
    ensures |s| <= |keys|
  {
    if s != [] {
      assert s == [s[0]] + s[1..];
      DistinctSize(s[1..], keys - {s[0]});
    }
  }

  /** There is always room for one of the keys that is not there yet. */
  lemma MakeRoomIdle(lim: Limits, m: Mem, k: Key, keys: set<Key>, now: int)
    requires Ok(lim, m) && Holds(m, keys) && k in keys && k !in m.entries && |keys| <= lim.maxKeys
    ensures MakeRoom(lim, m, now) == m
  {
    DistinctSize(m.order, keys - {k});
  }

  lemma EnsureRoomIdle(lim: Limits, m: Mem, k: Key, keys: set<Key>, now: int)
    requires Ok(lim, m) && Holds(m, keys) && k in keys && Roomy(lim, keys)
    ensures EnsureRoom(lim, m, k, now) == m
  {
    hide Ok, MakeRoom, Holds;
    if lim.maxKeys > 0 && k !in m.entries {
      MakeRoomIdle(lim, m, k, keys, now);
    }
  }

  lemma DropHolds(m: Mem, k: Key, keys: set<Key>)
    requires Holds(m, keys)
    ensures Holds(Drop(m, k, Expired), keys) && Holds(Erase(m, k), keys)
  {
    assert forall x :: Spared(m, x) ==> Spared(Drop(m, k, Expired), x) && Spared(Erase(m, k), x);
  }

  lemma PutHolds(m: Mem, k: Key, s: KeyState, keys: set<Key>)
    requires Holds(m, keys) && k in keys
    ensures Holds(Put(m, k, s), keys)
  {
    assert forall x :: Spared(m, x) ==> Spared(Put(m, k, s), x);
  }

  lemma PlaceHolds(lim: Limits, m: Mem, k: Key, s: KeyState, keys: set<Key>, now: int)
    requires Ok(lim, m) && Holds(m, keys) && k in keys && Roomy(lim, keys)
    ensures Holds(Place(lim, m, k, s, now), keys)
  {
    hide Ok, Holds, EnsureRoom;
    EnsureRoomIdle(lim, m, k, keys, now);
    DropHolds(m, k, keys);
    PutHolds(if lim.maxKeys > 0 then Erase(m, k) else m, k, s, keys);
  }

  lemma ClaimHolds(lim: Limits, m: Mem, k: Key, keys: set<Key>, now: int)
    requires Ok(lim, m) && Holds(m, keys) && k in keys && Roomy(lim, keys)
    ensures Holds(Claim(lim, m, k, now), keys)
  {
    hide Ok, Holds, EnsureRoom;
    var cur := DropWallExpired(m, k, now);
    DropWallExpiredOk(lim, m, k, now);
    DropHolds(m, k, keys);
    DropHolds(cur, k, keys);
    EnsureRoomIdle(lim, cur, k, keys, now);
  }

  lemma IncrementHolds(lim: Limits, m: Mem, k: Key, override: Option<int>, n: Cost, keys: set<Key>, now: int)
    requires Ok(lim, m) && Holds(m, keys) && k in keys && Roomy(lim, keys)
    ensures Holds(IncrementKey(lim, m, k, override, n, now).0, keys)
  {
    OkEntry(lim, m, k);
    hide Ok, Holds, Increment, Place, Claim;
    var s := Increment(lim.strategy, Lookup(m, k), override, n, now).0;
    ClaimHolds(lim, m, k, keys, now);
    PutHolds(Claim(lim, m, k, now), k, s, keys);
    PlaceHolds(lim, m, k, s, keys, now);
  }

  lemma DecrementHolds(lim: Limits, m: Mem, k: Key, n: Cost, removeNewest: bool, keys: set<Key>)
    requires Ok(lim, m) && Holds(m, keys)
    ensures lim.strategy.Valid() && (k in m.entries ==> Matches(lim.strategy, m.entries[k]))
    ensures Holds(DecrementKey(lim, m, k, n, removeNewest), keys)
  {
    OkEntry(lim, m, k);
    hide Ok, Decrement;
    DropHolds(m, k, keys);
    if k in m.entries {
      var s := Decrement(lim.strategy, m.entries[k], n, removeNewest);
      if s.Some? {
        PutHolds(m, k, s.value, keys);
      }
    }
  }

  lemma GetHolds(lim: Limits, m: Mem, k: Key, keys: set<Key>, now: int)
    requires Ok(lim, m) && Holds(m, keys)
    ensures lim.strategy.Valid() && (k in m.entries ==> Matches(lim.strategy, m.entries[k]))
    ensures Holds(GetKey(lim, m, k, now).0, keys)
  {
    OkEntry(lim, m, k);
    hide Ok, Peek;
    DropHolds(m, k, keys);
    var cur := DropWallExpired(m, k, now);
    assert Holds(cur, keys);
    DropHolds(cur, k, keys);
    if k in cur.entries {
      PutHolds(Erase(cur, k), k, cur.entries[k], keys);
    }
  }

  lemma PurgeOneHolds(lim: Limits, m: Mem, k: Key, pass: Pass, keys: set<Key>, now: int)
    requires Ok(lim, m) && Holds(m, keys)
    ensures k in m.entries ==> Matches(lim.strategy, m.entries[k])
    ensures Holds(PurgeOne(lim, m, k, pass, now), keys)
  {
    OkEntry(lim, m, k);
    hide Ok, Cut;
    DropHolds(m, k, keys);
    if k in m.entries && m.entries[k].Sliding? && lim.strategy.SlidingWindow? {
      PutHolds(m, k, m.entries[k].(stamps := Cut(m.entries[k].stamps, now - lim.strategy.windowMs)), keys);
    }
  }

  lemma {:induction false} PurgeAllHolds(lim: Limits, m: Mem, ks: seq<Key>, pass: Pass, keys: set<Key>, now: int)
    requires Ok(lim, m) && Holds(m, keys)
    ensures Holds(PurgeAll(lim, m, ks, pass, now), keys)
  {
    hide Ok, Holds, PurgeOne;
    if ks != [] {
      PurgeAllHolds(lim, m, ks[..|ks| - 1], pass, keys, now);
      PurgeOneHolds(lim, PurgeAll(lim, m, ks[..|ks| - 1], pass, now), ks[|ks| - 1], pass, keys, now);
    }
  }

  lemma PurgeHolds(lim: Limits, m: Mem, keys: set<Key>, now: int)
    requires Ok(lim, m) && Holds(m, keys)
    ensures Holds(Purge(lim, m, now), keys)
  {
    hide Ok, Holds, PurgeAll;
    PurgeAllHolds(lim, m, m.order, WallPass, keys, now);
    var walls := if lim.strategy.SlidingWindow? then PurgeAll(lim, m, m.order, WallPass, now) else m;
    PurgeAllHolds(lim, walls, walls.order, TrimPass, keys, now);
  }

  /** No operation on one of the keys drops a live one. */
  lemma ApplyHolds(lim: Limits, m: Mem, op: StoreOp, keys: set<Key>)
    requires Ok(lim, m) && Holds(m, keys) && Roomy(lim, keys) && (KeyOf(op).Some? ==> KeyOf(op).value in keys)
    ensures Holds(Apply(lim, m, op).0, keys)
  {
    OkStrategy(lim, m);
    hide Ok, IncrementKey, DecrementKey, GetKey, Place, Purge, Roomy;
    match op
    case Inc(k, override, cost, now) => IncrementHolds(lim, m, k, override, CostOf(cost), keys, now);
    case Dec(k, cost, removeNewest) => DecrementHolds(lim, m, k, CostOf(cost), removeNewest, keys);
    case Get(k, now) => GetHolds(lim, m, k, keys, now);
    case SetHits(k, hits, expiresAt, now) => PlaceHolds(lim, m, k, Assigned(lim, hits, expiresAt, now).0, keys, now);
    case PurgeTick(now) => PurgeHolds(lim, m, keys, now);
    case Delete(k) => DropHolds(m, k, keys);
    case Reset(k, now) =>
      DropHolds(m, k, keys);
      if lim.strategy.FixedWindow? {
        PutHolds(m, k, Fixed(0, now + lim.strategy.windowMs), keys);
      } else if lim.strategy.TokenBucket? {
        PutHolds(m, k, Bucket(lim.strategy.bucketSize, now), keys);
      }
    case ResetAll => assert forall x :: Spared(m, x) ==> Spared(Mem([], map[], m.evicted), x);
  }

  /** Every operation that has a key has one of these. */
  ghost predicate KeysWithin(ops: seq<StoreOp>, keys: set<Key>) {
    forall i :: 0 <= i < |ops| && KeyOf(ops[i]).Some? ==> KeyOf(ops[i]).value in keys
  }

  /** In a whole run over at most `maxKeys` keys, nothing live is ever evicted. */
  lemma {:induction false} RunHolds(lim: Limits, ops: seq<StoreOp>, keys: set<Key>)
    requires lim.strategy.Valid() && Roomy(lim, keys) && KeysWithin(ops, keys)
    ensures Holds(Exec(lim, ops), keys)
  {
    if ops != [] {
      hide Ok, Apply, Holds;
      RunHolds(lim, ops[..|ops| - 1], keys);
      ApplyHolds(lim, Exec(lim, ops[..|ops| - 1]), ops[|ops| - 1], keys);
    }
  }
}
