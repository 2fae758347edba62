/**
 The token-bucket guarantee for runs of a whole store: any keys, reads, purges and evictions,
 as long as the key itself is not evicted live.
 */
module BucketTable {
  import opened Entries
  import opened MemoryTable
  import opened BucketRuns
  import opened FewKeys

  ghost predicate BucketLimits(lim: Limits) {
    lim.strategy.Valid() && lim.strategy.TokenBucket?
  }

  /** Increments, reads and purges, with a clock that runs from `first` to `last`. */
  ghost predicate Clocked(ops: seq<StoreOp>, first: int, last: int)
    decreases |ops|
  {
    first <= last
    && (ops == []
      || ((ops[0].Inc? || ops[0].Get? || ops[0].PurgeTick?) && first <= ops[0].now
        && Clocked(ops[1..], ops[0].now, last)))
  }

  ghost function ExecFrom(lim: Limits, m: Mem, ops: seq<StoreOp>): (r: Mem)
    requires Ok(lim, m)
    ensures Ok(lim, r)
    decreases |ops|
  {
    if ops == [] then m
    else
      ApplyOk(lim, m, ops[0]);
      ExecFrom(lim, Apply(lim, m, ops[0]).0, ops[1..])
  }

  ghost function GrantedBy(lim: Limits, m: Mem, op: StoreOp, k: Key): (n: nat)
    requires Ok(lim, m)
  {
    if op.Inc? && op.key == k && !IncrementKey(lim, m, k, op.override, CostOf(op.cost), op.now).1.isBlocked
    then CostOf(op.cost)
    else 0
  }

  /** Cost admitted for a key by a run of the store from `m`. */
  ghost function AdmittedFor(lim: Limits, m: Mem, ops: seq<StoreOp>, k: Key): (n: nat)
    requires Ok(lim, m)
    decreases |ops|
  {
    if ops == [] then 0
    else
      ApplyOk(lim, m, ops[0]);
      GrantedBy(lim, m, ops[0], k) + AdmittedFor(lim, Apply(lim, m, ops[0]).0, ops[1..], k)
  }

  // ----- the key's own run ------------------------------------------------------------------

  /** What one operation of the store is for the key. */
  ghost function Seen(lim: Limits, m: Mem, op: StoreOp, k: Key): (r: seq<BucketOp>)
    requires Ok(lim, m) && (op.Inc? || op.Get? || op.PurgeTick?)
    ensures |r| <= 1
  {
    if op.Inc? && op.key == k then [Take(CostOf(op.cost), op.now)]
    else if k in m.entries && k !in Apply(lim, m, op).0.entries then [IdlePurge(op.now)]
    else []
  }

  /** The key keeps its entry, or an idle full bucket is dropped. */
  ghost predicate Kept(lim: Limits, m: Mem, r: Mem, k: Key, now: int)
    requires lim.strategy.TokenBucket?
  {
    m.evicted <= r.evicted &&
    (Spared(r, k) ==> Lookup(r, k) == Lookup(m, k)
                      || (Lookup(r, k) == None && k in m.entries && m.entries[k].Bucket?
                        && IdleFull(lim.strategy, m.entries[k], now)))
  }

  lemma OtherIncrementKept(lim: Limits, m: Mem, x: Key, override: Option<int>, n: Cost, now: int, k: Key)
    requires Ok(lim, m) && BucketLimits(lim) && x != k
    ensures Kept(lim, m, IncrementKey(lim, m, x, override, n, now).0, k, now)
  {
    OkEntry(lim, m, k);
    OkEntry(lim, m, x);
    MakeRoomKeeps(lim, m, now);
    MakeRoomGrows(lim, m, now);
    if k in m.entries {
      MakeRoomLoses(lim, m, now, k);
    }
    hide Ok, MakeRoom, Increment;
  }

  lemma OwnIncrement(lim: Limits, m: Mem, k: Key, override: Option<int>, n: Cost, now: int)
    requires Ok(lim, m) && BucketLimits(lim)
    ensures MatchesOption(lim.strategy, Lookup(m, k))
    ensures var (r, res) := IncrementKey(lim, m, k, override, n, now);
            m.evicted <= r.evicted && Lookup(r, k) == Some(Increment(lim.strategy, Lookup(m, k), None, n, now).0)
            && res == Increment(lim.strategy, Lookup(m, k), None, n, now).1
  {
    OkEntry(lim, m, k);
    MakeRoomGrows(lim, m, now);
    hide Ok, MakeRoom, BucketIncrement;
  }

  lemma PurgeOneKept(lim: Limits, m: Mem, x: Key, now: int, k: Key)
    requires Ok(lim, m) && BucketLimits(lim)
    ensures x in m.entries ==> Matches(lim.strategy, m.entries[x])
    ensures Kept(lim, m, PurgeOne(lim, m, x, TrimPass, now), k, now)
  {
    OkEntry(lim, m, x);
    hide Ok;
  }

  lemma {:induction false} PurgeAllKept(lim: Limits, m: Mem, keys: seq<Key>, now: int, k: Key)
    requires Ok(lim, m) && BucketLimits(lim)
    ensures Kept(lim, m, PurgeAll(lim, m, keys, TrimPass, now), k, now)
  {
    hide Ok, PurgeOne, IdleFull;
    if keys != [] {
      var prev := PurgeAll(lim, m, keys[..|keys| - 1], TrimPass, now);
      PurgeAllKept(lim, m, keys[..|keys| - 1], now, k);
      PurgeOneKept(lim, prev, keys[|keys| - 1], now, k);
      KeptTrans(lim, m, prev, PurgeAll(lim, m, keys, TrimPass, now), k, now);
    }
  }

  lemma KeptTrans(lim: Limits, a: Mem, b: Mem, c: Mem, k: Key, now: int)
    requires lim.strategy.TokenBucket? && Kept(lim, a, b, k, now) && Kept(lim, b, c, k, now)
    ensures Kept(lim, a, c, k, now)
  {
    hide IdleFull;
    assert forall e :: e in b.evicted ==> e in c.evicted;
  }

  lemma ReadKept(lim: Limits, m: Mem, x: Key, now: int, k: Key)
    requires Ok(lim, m) && BucketLimits(lim)
    ensures x in m.entries ==> Matches(lim.strategy, m.entries[x])
    ensures Kept(lim, m, GetKey(lim, m, x, now).0, k, now)
  {
    OkEntry(lim, m, x);
    hide Ok, Peek;
  }

  /** One operation of the store is at most one operation of the key's bucket, with the same grant. */
  lemma StepSeen(lim: Limits, m: Mem, op: StoreOp, k: Key)
    requires Ok(lim, m) && BucketLimits(lim) && (op.Inc? || op.Get? || op.PurgeTick?)
    ensures MatchesOption(lim.strategy, Lookup(m, k)) && m.evicted <= Apply(lim, m, op).0.evicted
    ensures var (r, ops) := (Apply(lim, m, op).0, Seen(lim, m, op, k));
            Spared(r, k) ==>
              && Lookup(r, k) == (if ops == [] then Lookup(m, k) else Next(lim.strategy, Lookup(m, k), ops[0]))
              && GrantedBy(lim, m, op, k) == (if ops == [] then 0 else Granted(lim.strategy, Lookup(m, k), ops[0]))
  {
    OkEntry(lim, m, k);
    hide Ok, IncrementKey, PurgeAll, GetKey, Increment, IdleFull;
    match op
    case Inc(x, override, cost, now) =>
      if x == k {
        OwnIncrement(lim, m, k, override, CostOf(cost), now);
      } else {
        OtherIncrementKept(lim, m, x, override, CostOf(cost), now, k);
      }
    case Get(x, now) => ReadKept(lim, m, x, now, k);
    case PurgeTick(now) => PurgeAllKept(lim, m, m.order, now, k);
  }

  ghost function SeenAll(lim: Limits, m: Mem, ops: seq<StoreOp>, first: int, last: int, k: Key): (r: seq<BucketOp>)
    requires Ok(lim, m) && Clocked(ops, first, last)
    ensures Timed(r, first, last)
    decreases |ops|
  {
    if ops == [] then []
    else
      ApplyOk(lim, m, ops[0]);
      var rest := SeenAll(lim, Apply(lim, m, ops[0]).0, ops[1..], ops[0].now, last, k);
      var here := Seen(lim, m, ops[0], k);
      ClockedBound(ops, first, last);
      TimedEarlier(rest, first, ops[0].now, last);
      if here == [] then rest else here + rest
  }

  lemma ClockedBound(ops: seq<StoreOp>, first: int, last: int)
    requires ops != [] && Clocked(ops, first, last)
    ensures first <= ops[0].now <= last
  {
  }

  lemma TimedEarlier(ops: seq<BucketOp>, first: int, now: int, last: int)
    requires Timed(ops, now, last) && first <= now
    ensures Timed(ops, first, last)
  {
  }

  lemma {:induction false} RunGrows(lim: Limits, m: Mem, ops: seq<StoreOp>, first: int, last: int, k: Key)
    requires Ok(lim, m) && BucketLimits(lim) && Clocked(ops, first, last)
    ensures Spared(ExecFrom(lim, m, ops), k) ==> Spared(m, k)
    decreases |ops|
  {
    hide Ok, Apply;
    if ops != [] {
      var next := Apply(lim, m, ops[0]).0;
      ApplyOk(lim, m, ops[0]);
      StepSeen(lim, m, ops[0], k);
      RunGrows(lim, next, ops[1..], ops[0].now, last, k);
      assert forall e :: e in m.evicted ==> e in next.evicted;
    }
  }

  /** The store's run is, for the key, a run of one bucket. */
  lemma {:induction false} RunSeen(lim: Limits, m: Mem, ops: seq<StoreOp>, first: int, last: int, k: Key)
    requires Ok(lim, m) && BucketLimits(lim) && Clocked(ops, first, last) && Spared(ExecFrom(lim, m, ops), k)
    ensures MatchesOption(lim.strategy, Lookup(m, k))
    ensures Lookup(ExecFrom(lim, m, ops), k) == After(lim.strategy, Lookup(m, k), SeenAll(lim, m, ops, first, last, k))
    ensures AdmittedFor(lim, m, ops, k) == Admitted(lim.strategy, Lookup(m, k), SeenAll(lim, m, ops, first, last, k))
    decreases |ops|
  {
    OkEntry(lim, m, k);
    hide Ok, Apply, Seen, GrantedBy, Granted, Next, Spared;
    if ops != [] {
      var next := Apply(lim, m, ops[0]).0;
      ApplyOk(lim, m, ops[0]);
      StepSeen(lim, m, ops[0], k);
      RunGrows(lim, next, ops[1..], ops[0].now, last, k);
      RunSeen(lim, next, ops[1..], ops[0].now, last, k);
      var (here, rest) := (Seen(lim, m, ops[0], k), SeenAll(lim, next, ops[1..], ops[0].now, last, k));
      if here != [] {
        assert (here + rest)[1..] == rest;
      }
    }
  }

  lemma {:induction false} ExecFromSnoc(lim: Limits, m: Mem, ops: seq<StoreOp>, op: StoreOp)
    requires Ok(lim, m)
    ensures ExecFrom(lim, m, ops + [op]) == Apply(lim, ExecFrom(lim, m, ops), op).0
    decreases |ops|
  {
    hide Ok, Apply;
    if ops == [] {
      assert [] + [op] == [op];
      assert ExecFrom(lim, m, [op]) == ExecFrom(lim, Apply(lim, m, op).0, [op][1..]) by { ApplyOk(lim, m, op); }
    } else {
      ApplyOk(lim, m, ops[0]);
      assert (ops + [op])[1..] == ops[1..] + [op];
      ExecFromSnoc(lim, Apply(lim, m, ops[0]).0, ops[1..], op);
    }
  }

  lemma NoSteps(lim: Limits)
    requires lim.strategy.Valid()
    ensures Ok(lim, EMPTY) && Exec(lim, []) == EMPTY == ExecFrom(lim, EMPTY, [])
  {
    EmptyOk(lim, []);
  }

  lemma {:induction false} ExecIsExecFrom(lim: Limits, ops: seq<StoreOp>)
    requires lim.strategy.Valid()
    ensures Ok(lim, EMPTY) && Exec(lim, ops) == ExecFrom(lim, EMPTY, ops)
  {
    hide Ok, Apply, ExecFrom;
    NoSteps(lim);
    if ops != [] {
      ExecIsExecFrom(lim, ops[..|ops| - 1]);
      ExecFromSnoc(lim, EMPTY, ops[..|ops| - 1], ops[|ops| - 1]);
      assert ops[..|ops| - 1] + [ops[|ops| - 1]] == ops;
    }
  }

  /**
   After any earlier run, between any two times of the store: the cost admitted for a key that is not evicted live
   is at most bucketSize + tokensPerInterval * ceil(elapsed / interval).
   */
  lemma StoreAdmitsWithinRefills(lim: Limits, earlier: seq<StoreOp>, ops: seq<StoreOp>, k: Key, start: int,
      first: int, last: int)
    requires BucketLimits(lim) && Clocked(earlier, start, first) && Clocked(ops, first, last)
    requires Spared(ExecFrom(lim, Exec(lim, earlier), ops), k)
    ensures AdmittedFor(lim, Exec(lim, earlier), ops, k)
            <= lim.strategy.bucketSize + lim.strategy.tokensPerInterval * Ceil(last - first, lim.strategy.interval)
  {
    hide Ok, ExecFrom, AdmittedFor, SeenAll, Admitted, After, Spared, Clocked, Exec;
    var m := Exec(lim, earlier);
    RunGrows(lim, m, ops, first, last, k);
    ExecIsExecFrom(lim, earlier);
    RunSeen(lim, EMPTY, earlier, start, first, k);
    TokensStayInBucket(lim.strategy, None, SeenAll(lim, EMPTY, earlier, start, first, k), start, first);
    RunSeen(lim, m, ops, first, last, k);
    AdmittedWithinRefills(lim.strategy, Lookup(m, k), SeenAll(lim, m, ops, first, last, k), first, last);
  }

  lemma {:induction false} ExecFromHolds(lim: Limits, m: Mem, ops: seq<StoreOp>, keys: set<Key>)
    requires Ok(lim, m) && Holds(m, keys) && Roomy(lim, keys) && KeysWithin(ops, keys)
    ensures Holds(ExecFrom(lim, m, ops), keys)
    decreases |ops|
  {
    hide Ok, Apply, Holds, Roomy;
    if ops != [] {
      assert KeyOf(ops[0]).Some? ==> KeyOf(ops[0]).value in keys;
      ApplyOk(lim, m, ops[0]);
      ApplyHolds(lim, m, ops[0], keys);
      ExecFromHolds(lim, Apply(lim, m, ops[0]).0, ops[1..], keys);
    }
  }

  /** With no more keys than the store may hold, the key cannot be evicted live. */
  lemma StoreAdmitsWithinRefillsFewKeys(
    lim: Limits, earlier: seq<StoreOp>, ops: seq<StoreOp>, keys: set<Key>, k: Key, start: int, first: int, last: int)
    requires BucketLimits(lim) && Clocked(earlier, start, first) && Clocked(ops, first, last)
    requires Roomy(lim, keys) && KeysWithin(earlier, keys) && KeysWithin(ops, keys)
    ensures AdmittedFor(lim, Exec(lim, earlier), ops, k)
            <= lim.strategy.bucketSize + lim.strategy.tokensPerInterval * Ceil(last - first, lim.strategy.interval)
  {
    hide Ok, ExecFrom, AdmittedFor, Clocked, Exec, Roomy, KeysWithin, Ceil;
    RunHolds(lim, earlier, keys);
    ExecFromHolds(lim, Exec(lim, earlier), ops, keys);
    StoreAdmitsWithinRefills(lim, earlier, ops, k, start, first, last);
  }
}
