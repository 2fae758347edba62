/**
 The token bucket told tick by tick: one interval after the other adds its tokens as far as the
 bucket has room. The store refills all at once and lazily; after every run it holds what the
 ticking bucket holds, and answers as it says.
 */
module BucketTicks {
  import opened Entries
  import opened EntryLaws
  import opened MemoryTable
  import opened BucketRuns
  import opened BucketTable
  import opened Composition
  import opened FewKeys
  import opened TidyRuns

  /** `lastTick` is the end of the last interval that was paid out, at first the time of creation. */
  datatype Ticker = Ticker(tokens: int, lastTick: int)

  function Tick(cfg: Strategy, t: Ticker): (r: Ticker)
    requires cfg.TokenBucket?
  {
    var more := t.tokens + cfg.tokensPerInterval;
    Ticker(if more > cfg.bucketSize then cfg.bucketSize else more, t.lastTick + cfg.interval)
  }

  /** Every interval that is over by `now` ticks once. */
  function Elapse(cfg: Strategy, t: Ticker, now: int): (r: Ticker)
    requires cfg.Valid() && cfg.TokenBucket?
    decreases now - t.lastTick
  {
    if t.lastTick + cfg.interval <= now then Elapse(cfg, Tick(cfg, t), now) else t
  }

  /** The bucket at `now`: full when it does not exist yet. */
  function AtTime(cfg: Strategy, t: Option<Ticker>, now: int): (r: Ticker)
    requires cfg.Valid() && cfg.TokenBucket?
  {
    if t.None? then Ticker(cfg.bucketSize, now) else Elapse(cfg, t.value, now)
  }

  /** The ticking bucket over a key's life. */
  ghost function Ticked(cfg: Strategy, t: Option<Ticker>, ops: seq<BucketOp>): (r: Option<Ticker>)
    requires cfg.Valid() && cfg.TokenBucket?
    decreases |ops|
  {
    if ops == [] then t
    else
      var next := match ops[0]
        case Take(n, now) =>
          var b := AtTime(cfg, t, now);
          Some(if b.tokens < n then b else b.(tokens := b.tokens - n))
        case IdlePurge(now) =>
          if t.Some? && t.value.tokens >= cfg.bucketSize && now - t.value.lastTick > 10 * cfg.interval then None else t;
      Ticked(cfg, next, ops[1..])
  }

  /** A stored bucket, as the ticking one. */
  function Shown(s: Option<KeyState>): (t: Option<Ticker>) {
    if s.Some? && s.value.Bucket? then Some(Ticker(s.value.tokens, s.value.lastRefill)) else None
  }

  // ----- refilling at once is ticking -----------------------------------------------------------

  lemma {:induction false} RefillIsTicks(cfg: Strategy, b: KeyState, now: int)
    requires cfg.Valid() && cfg.TokenBucket? && b.Bucket?
    ensures var r := Refill(cfg, b, now);
            Elapse(cfg, Ticker(b.tokens, b.lastRefill), now) == Ticker(r.tokens, r.lastRefill)
    decreases now - b.lastRefill
  {
    var d := cfg.interval;
    var k := (now - b.lastRefill) / d;
    if b.lastRefill + d <= now {
      var t := Tick(cfg, Ticker(b.tokens, b.lastRefill));
      DivShift(now - b.lastRefill, 1, d);
      RefillIsTicks(cfg, Bucket(t.tokens, t.lastTick), now);
      DivMonotone(d, now - b.lastRefill, d);
      DivUnique(d, d, 1, 0);
      assert k >= 1 && (now - t.lastTick) / d == k - 1;
      assert (k - 1) * cfg.tokensPerInterval == k * cfg.tokensPerInterval - cfg.tokensPerInterval;
      TimesMonotone(0, k - 1, cfg.tokensPerInterval);
      assert (k - 1) * d == k * d - d;
    } else {
      DivMonotone(now - b.lastRefill, d - 1, d);
      DivUnique(d - 1, d, 0, d - 1);
    }
  }

  /** What an increment answers, from the ticking bucket. */
  ghost predicate AnswersAs(cfg: Strategy, b: Ticker, n: Cost, r: Result)
    requires cfg.TokenBucket?
  {
    && (r.isBlocked <==> b.tokens < n)
    && r.remaining == (if b.tokens < n then 0 else b.tokens - n)
    && r.totalHits == (if b.tokens < n then cfg.bucketSize else cfg.bucketSize - r.remaining)
    && r.resetTime == b.lastTick + cfg.interval
  }

  /** One increment: allowed exactly when the ticking bucket holds its cost; a blocked one takes nothing. */
  lemma IncrementIsTicked(cfg: Strategy, s: Option<KeyState>, override: Option<int>, n: Cost, now: int)
    requires cfg.Valid() && cfg.TokenBucket? && MatchesOption(cfg, s)
    ensures var (next, r) := Increment(cfg, s, override, n, now);
            var b := AtTime(cfg, Shown(s), now);
            && AnswersAs(cfg, b, n, r)
            && Shown(Some(next)) == Some(if b.tokens < n then b else b.(tokens := b.tokens - n))
  {
    RefillIsTicks(cfg, if s.None? then Bucket(cfg.bucketSize, now) else s.value, now);
    hide Refill;
  }

  /** After every run of a key's bucket the store holds what the ticking bucket holds. */
  lemma {:induction false} RunIsTicked(cfg: Strategy, s: Option<KeyState>, ops: seq<BucketOp>)
    requires cfg.Valid() && cfg.TokenBucket? && MatchesOption(cfg, s)
    ensures Shown(After(cfg, s, ops)) == Ticked(cfg, Shown(s), ops)
    decreases |ops|
  {
    if ops != [] {
      if ops[0].Take? {
        IncrementIsTicked(cfg, s, None, ops[0].n, ops[0].now);
      }
      hide Increment, AtTime;
      RunIsTicked(cfg, Next(cfg, s, ops[0]), ops[1..]);
    }
  }

  /**
   After every run of a store that has not evicted the key live: the key's bucket is the ticking one of its own
   increments, and the next increment is allowed exactly when that one holds its cost.
   */
  lemma StoreIsTicked(lim: Limits, ops: seq<StoreOp>, start: int, now: int, k: Key, override: Option<int>, n: Cost)
    requires BucketLimits(lim) && Clocked(ops, start, now) && Spared(Exec(lim, ops), k)
    ensures Ok(lim, EMPTY)
    ensures var (m, t) := (Exec(lim, ops), Ticked(lim.strategy, None, SeenAll(lim, EMPTY, ops, start, now, k)));
            && Shown(Lookup(m, k)) == t && (t.None? <==> k !in m.entries)
            && AnswersAs(lim.strategy, AtTime(lim.strategy, t, now), n, IncrementKey(lim, m, k, override, n, now).1)
  {
    hide Ok, Exec, SeenAll, Clocked, Ticked, AtTime, AnswersAs, After;
    var m := Exec(lim, ops);
    ExecIsExecFrom(lim, ops);
    RunSeen(lim, EMPTY, ops, start, now, k);
    RunIsTicked(lim.strategy, None, SeenAll(lim, EMPTY, ops, start, now, k));
    IncrementedEntry(lim, m, k, override, n, now);
    IncrementIsTicked(lim.strategy, Lookup(m, k), override, n, now);
    hide IncrementKey, Increment;
  }

  // ----- a bucket that rests fills up -------------------------------------------------------------

  /** `k` intervals after the last tick the bucket has had their tokens, or is full. */
  lemma {:induction false} RestFills(cfg: Strategy, t: Ticker, k: nat, now: int)
    requires cfg.Valid() && cfg.TokenBucket? && t.lastTick + k * cfg.interval <= now
    ensures var r := Elapse(cfg, t, now).tokens;
            r >= cfg.bucketSize || r >= t.tokens + k * cfg.tokensPerInterval
    decreases now - t.lastTick
  {
    if t.lastTick + cfg.interval <= now {
      var j := if k == 0 then 0 else k - 1;
      assert k > 0 ==> j * cfg.interval == k * cfg.interval - cfg.interval;
      assert k > 0 ==> j * cfg.tokensPerInterval == k * cfg.tokensPerInterval - cfg.tokensPerInterval;
      TimesMonotone(0, j, cfg.tokensPerInterval);
      RestFills(cfg, Tick(cfg, t), j, now);
    } else {
      MultipleIsFar(k, cfg.interval);
    }
  }

  /** The operation does not write the key. */
  predicate Leaves(op: StoreOp, k: Key) {
    op.Get? || KeyOf(op) != Some(k)
  }

  lemma {:induction false} PurgeAllLeaves(lim: Limits, m: Mem, keys: seq<Key>, now: int, k: Key)
    requires Ok(lim, m) && BucketLimits(lim)
    ensures var r := PurgeAll(lim, m, keys, TrimPass, now); Lookup(r, k) == Lookup(m, k) || Lookup(r, k) == None
  {
    hide Ok, PurgeOne;
    if keys != [] {
      var prev := PurgeAll(lim, m, keys[..|keys| - 1], TrimPass, now);
      PurgeAllLeaves(lim, m, keys[..|keys| - 1], now, k);
      PurgeOneKept(lim, prev, keys[|keys| - 1], now, k);
      PurgeOneLeaves(lim, prev, keys[|keys| - 1], now, k);
    }
  }

  lemma PurgeOneLeaves(lim: Limits, m: Mem, x: Key, now: int, k: Key)
    requires Ok(lim, m) && BucketLimits(lim) && (x in m.entries ==> Matches(lim.strategy, m.entries[x]))
    ensures var r := PurgeOne(lim, m, x, TrimPass, now); Lookup(r, k) == Lookup(m, k) || Lookup(r, k) == None
  {
    hide Ok;
  }

  lemma PlaceLeaves(lim: Limits, m: Mem, x: Key, s: KeyState, now: int, k: Key)
    requires Ok(lim, m) && x != k
    ensures var r := Place(lim, m, x, s, now); Lookup(r, k) == Lookup(m, k) || Lookup(r, k) == None
  {
    MakeRoomKeeps(lim, m, now);
    hide Ok, MakeRoom;
  }

  /** A key that is not written keeps its bucket, or loses it. */
  lemma StepLeaves(lim: Limits, m: Mem, op: StoreOp, k: Key)
    requires Ok(lim, m) && BucketLimits(lim) && Leaves(op, k)
    ensures var r := Apply(lim, m, op).0; Lookup(r, k) == Lookup(m, k) || Lookup(r, k) == None
  {
    OkStrategy(lim, m);
    hide Ok, Place, PurgeAll, Increment, Decrement, Peek;
    match op
    case Inc(x, override, cost, now) =>
      PlaceLeaves(lim, m, x, Increment(lim.strategy, Lookup(m, x), override, CostOf(cost), now).0, now, k);
    case SetHits(x, hits, expiresAt, now) => PlaceLeaves(lim, m, x, Assigned(lim, hits, expiresAt, now).0, now, k);
    case PurgeTick(now) => PurgeAllLeaves(lim, m, m.order, now, k);
    case _ =>
  }

  lemma {:induction false} RunLeaves(lim: Limits, earlier: seq<StoreOp>, later: seq<StoreOp>, k: Key)
    requires BucketLimits(lim) && forall i :: 0 <= i < |later| ==> Leaves(later[i], k)
    ensures var r := Exec(lim, earlier + later); Lookup(r, k) == Lookup(Exec(lim, earlier), k) || Lookup(r, k) == None
    decreases |later|
  {
    if later == [] {
      assert earlier + later == earlier;
    } else {
      var (init, op) := (later[..|later| - 1], later[|later| - 1]);
      LastStep(lim, earlier + init, op);
      hide Ok, Apply, Leaves, Exec;
      assert (earlier + init) + [op] == earlier + later;
      assert Leaves(later[|later| - 1], k);
      RunLeaves(lim, earlier, init, k);
      StepLeaves(lim, Exec(lim, earlier + init), op, k);
    }
  }

  lemma LastStep(lim: Limits, ops: seq<StoreOp>, op: StoreOp)
    requires lim.strategy.Valid()
    ensures Exec(lim, ops + [op]) == Apply(lim, Exec(lim, ops), op).0
  {
    hide Ok, Apply;
    assert (ops + [op])[..|ops|] == ops;
  }

  /**
   After every run of any operations, a key that nobody writes for `k` whole intervals, whatever happens to other
   keys, is granted any cost up to what they bring in, or up to the size of the bucket.
   */
  lemma RestIsGranted(lim: Limits, earlier: seq<StoreOp>, last: int, later: seq<StoreOp>, key: Key, k: nat,
      override: Option<int>, n: Cost, now: int)
    requires BucketLimits(lim) && Forward(earlier, last) && forall i :: 0 <= i < |later| ==> Leaves(later[i], key)
    requires last + k * lim.strategy.interval <= now
    requires n <= lim.strategy.bucketSize && n <= k * lim.strategy.tokensPerInterval
    ensures !IncrementKey(lim, Exec(lim, earlier + later), key, override, n, now).1.isBlocked
  {
    hide Ok, Exec, Forward, Elapse, Leaves;
    var m := Exec(lim, earlier + later);
    RunTidy(lim, earlier, last);
    RunLeaves(lim, earlier, later, key);
    IncrementedEntry(lim, m, key, override, n, now);
    IncrementIsTicked(lim.strategy, Lookup(m, key), override, n, now);
    if key in m.entries {
      assert Tidy(Exec(lim, earlier).entries[key], last);
      RestFills(lim.strategy, Shown(Lookup(m, key)).value, k, now);
    }
    hide IncrementKey, Increment;
  }
}
