/**
 What every run with a forward clock leaves in a store: stamps in order, no stamp or refill in
 the future, and no negative count or level.
 */
module TidyRuns {
  import opened Entries
  import opened EntryLaws
  import opened MemoryTable

  /** Stamps in order, none in the future. */
  ghost predicate InOrder(s: seq<int>, now: int) {
    Ascending(s) && forall i :: 0 <= i < |s| ==> s[i] <= now
  }

  ghost predicate Tidy(s: KeyState, now: int) {
    match s
    case Sliding(stamps, _) => InOrder(stamps, now)
    case Fixed(count, _) => count >= 0
    case Bucket(tokens, lastRefill) => tokens >= 0 && lastRefill <= now
  }

  ghost predicate AllTidy(m: Mem, now: int) {
    forall k :: k in m.entries ==> Tidy(m.entries[k], now)
  }

  lemma {:induction false} CutInOrder(s: seq<int>, lo: int, now: int)
    requires InOrder(s, now)
    ensures InOrder(Cut(s, lo), now)
  {
    if s != [] {
      CutInOrder(s[1..], lo, now);
      CutFrom(s[1..], lo);
      forall i | 0 <= i < |Cut(s[1..], lo)| ensures s[0] <= Cut(s[1..], lo)[i] {
        assert Cut(s[1..], lo)[i] in s[1..];
      }
    }
  }

  lemma {:induction false} CutFrom(s: seq<int>, lo: int)
    ensures forall i :: 0 <= i < |Cut(s, lo)| ==> Cut(s, lo)[i] in s
  {
    if s != [] {
      CutFrom(s[1..], lo);
      assert forall x :: x in s[1..] ==> x in s;
    }
  }

  lemma RepeatInOrder(at: int, n: nat)
    ensures InOrder(Repeat(at, n), at)
  {
  }

  lemma AppendInOrder(s: seq<int>, now: int, n: nat)
    requires InOrder(s, now)
    ensures InOrder(s + Repeat(now, n), now)
  {
  }

  lemma SliceInOrder(s: seq<int>, now: int, i: nat, j: nat)
    requires InOrder(s, now) && i <= j <= |s|
    ensures InOrder(s[i..j], now)
  {
  }

  lemma BucketTidy(cfg: Strategy, s: Option<KeyState>, n: Cost, now: int)
    requires cfg.Valid() && cfg.TokenBucket? && MatchesOption(cfg, s) && (s.Some? ==> Tidy(s.value, now))
    ensures Tidy(BucketIncrement(cfg, s, n, now).0, now)
  {
    var b := if s.None? then Bucket(cfg.bucketSize, now) else s.value;
    RefillLands(cfg, b, now);
    assert (now - b.lastRefill) / cfg.interval > 0 ==> (now - b.lastRefill) / cfg.interval * cfg.tokensPerInterval >= 0;
  }

  lemma IncrementTidy(cfg: Strategy, s: Option<KeyState>, override: Option<int>, n: Cost, now: int)
    requires cfg.Valid() && MatchesOption(cfg, s) && (s.Some? ==> Tidy(s.value, now))
    ensures Tidy(Increment(cfg, s, override, n, now).0, now)
  {
    if cfg.SlidingWindow? {
      var cur := Current(s, now);
      var stamps := if cur.Some? then cur.value.stamps else [];
      CutInOrder(stamps, now - cfg.windowMs, now);
      hide InOrder, Cut;
      AppendInOrder(Cut(stamps, now - cfg.windowMs), now, n);
    } else if cfg.TokenBucket? {
      hide BucketIncrement;
      BucketTidy(cfg, s, n, now);
    }
  }

  lemma DecrementTidy(cfg: Strategy, s: KeyState, n: Cost, removeNewest: bool, now: int)
    requires cfg.Valid() && Matches(cfg, s) && Tidy(s, now)
    ensures var r := Decrement(cfg, s, n, removeNewest); r.Some? ==> Tidy(r.value, now)
  {
    if cfg.SlidingWindow? {
      hide InOrder;
      var k := Min(n, |s.stamps|);
      SliceInOrder(s.stamps, now, 0, |s.stamps| - k);
      SliceInOrder(s.stamps, now, k, |s.stamps|);
      assert s.stamps[k..] == s.stamps[k..|s.stamps|];
      assert s.stamps[..|s.stamps| - k] == s.stamps[0..|s.stamps| - k];
    }
  }

  lemma TidyLater(m: Mem, now: int, later: int)
    requires AllTidy(m, now) && now <= later
    ensures AllTidy(m, later)
  {
    forall k | k in m.entries ensures Tidy(m.entries[k], later) {
      assert Tidy(m.entries[k], now);
    }
  }

  lemma PutTidy(m: Mem, r: Mem, k: Key, s: KeyState, now: int)
    requires AllTidy(m, now) && Tidy(s, now)
    requires forall x :: x in r.entries ==> if x == k then r.entries[x] == s
             else x in m.entries && r.entries[x] == m.entries[x]
    ensures AllTidy(r, now)
  {
    hide Tidy;
  }

  lemma IncrementKeyTidy(lim: Limits, m: Mem, k: Key, override: Option<int>, n: Cost, now: int)
    requires Ok(lim, m) && AllTidy(m, now)
    ensures AllTidy(IncrementKey(lim, m, k, override, n, now).0, now)
  {
    OkEntry(lim, m, k);
    var s := Increment(lim.strategy, Lookup(m, k), override, n, now).0;
    hide Ok, Increment, MakeRoom, Tidy;
    IncrementTidy(lim.strategy, Lookup(m, k), override, n, now);
    DropWallExpiredOk(lim, m, k, now);
    MakeRoomKeeps(lim, m, now);
    MakeRoomKeeps(lim, DropWallExpired(m, k, now), now);
    PutTidy(m, IncrementKey(lim, m, k, override, n, now).0, k, s, now);
  }

  lemma PlaceTidy(lim: Limits, m: Mem, k: Key, s: KeyState, now: int)
    requires Ok(lim, m) && AllTidy(m, now) && Tidy(s, now)
    ensures AllTidy(Place(lim, m, k, s, now), now)
  {
    hide Ok, MakeRoom, Tidy;
    MakeRoomKeeps(lim, m, now);
    PutTidy(m, Place(lim, m, k, s, now), k, s, now);
  }

  lemma PurgeOneTidy(lim: Limits, m: Mem, k: Key, pass: Pass, now: int)
    requires Ok(lim, m) && AllTidy(m, now)
    ensures k in m.entries ==> Matches(lim.strategy, m.entries[k])
    ensures AllTidy(PurgeOne(lim, m, k, pass, now), now)
  {
    OkEntry(lim, m, k);
    hide Ok, Cut;
    if k in m.entries && lim.strategy.SlidingWindow? {
      assert Tidy(m.entries[k], now);
      CutInOrder(m.entries[k].stamps, now - lim.strategy.windowMs, now);
    }
  }

  lemma {:induction false} PurgeAllTidy(lim: Limits, m: Mem, keys: seq<Key>, pass: Pass, now: int)
    requires Ok(lim, m) && AllTidy(m, now)
    ensures AllTidy(PurgeAll(lim, m, keys, pass, now), now)
  {
    if keys != [] {
      hide Ok, PurgeOne, AllTidy;
      PurgeAllTidy(lim, m, keys[..|keys| - 1], pass, now);
      PurgeOneTidy(lim, PurgeAll(lim, m, keys[..|keys| - 1], pass, now), keys[|keys| - 1], pass, now);
    }
  }

  lemma PurgeTidy(lim: Limits, m: Mem, now: int)
    requires Ok(lim, m) && AllTidy(m, now)
    ensures AllTidy(Purge(lim, m, now), now)
  {
    hide Ok, PurgeAll, AllTidy;
    PurgeAllTidy(lim, m, m.order, WallPass, now);
    var walls := if lim.strategy.SlidingWindow? then PurgeAll(lim, m, m.order, WallPass, now) else m;
    PurgeAllTidy(lim, walls, walls.order, TrimPass, now);
  }

  lemma ApplyTidy(lim: Limits, m: Mem, op: StoreOp, now: int)
    requires Ok(lim, m) && AllTidy(m, now) && (TimeOf(op).Some? ==> TimeOf(op).value == now)
    ensures AllTidy(Apply(lim, m, op).0, now)
  {
    OkStrategy(lim, m);
    hide Ok, IncrementKey, Place, Purge, Decrement, Peek, InOrder;
    match op
    case Inc(k, override, cost, _) => IncrementKeyTidy(lim, m, k, override, CostOf(cost), now);
    case Dec(k, cost, removeNewest) =>
      if k in m.entries {
        DecrementTidy(lim.strategy, m.entries[k], CostOf(cost), removeNewest, now);
      }
    case SetHits(k, hits, expiresAt, _) =>
      RepeatInOrder(now, Max(0, hits));
      PlaceTidy(lim, m, k, Assigned(lim, hits, expiresAt, now).0, now);
    case PurgeTick(_) => PurgeTidy(lim, m, now);
    case _ =>
  }

  /** Every run of any operations with a forward clock. */
  lemma {:induction false} RunTidy(lim: Limits, ops: seq<StoreOp>, now: int)
    requires lim.strategy.Valid() && Forward(ops, now)
    ensures AllTidy(Exec(lim, ops), now)
  {
    if ops != [] {
      hide Ok, Apply, AllTidy;
      var (init, op) := (ops[..|ops| - 1], ops[|ops| - 1]);
      var t := if TimeOf(op).Some? then TimeOf(op).value else now;
      RunTidy(lim, init, t);
      ApplyTidy(lim, Exec(lim, init), op, t);
      TidyLater(Exec(lim, ops), t, now);
    }
  }
}
