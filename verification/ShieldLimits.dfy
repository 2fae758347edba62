/**
 Where a shielded store and a bare one part ways: exactly when requests get the same answer
 from both after any run, and the evictions, reads and decrements that can tell them apart.
 */
module ShieldLimits {
  import opened Entries
  import opened MemoryTable
  import opened ShieldSpec
  import opened ShieldRuns
  import opened FixedTable

  // ----- exactly when the two answer alike ------------------------------------------------------

  /** What is cached says blocked, with nothing remaining, until the entry expires. */
  ghost predicate Blocking(cap: int, s: Shield) {
    forall k :: k in s.cache ==> BlockingEntry(cap, s.cache[k])
  }

  ghost predicate BlockingEntry(cap: int, c: Cached) {
    c.result.isBlocked && c.result.remaining == 0 && c.result.totalHits >= cap && c.result.resetTime == c.expiresAt
  }

  lemma RequestBlocking(lim: Limits, opts: Options, s: Shield, k: Key, override: Option<int>, n: Cost, now: int)
    requires Fits(lim, opts) && Ok(lim, s.inner) && CacheOk(s) && Blocking(opts.blockOnConsumed, s)
    requires CapFor(lim.strategy, override) == opts.blockOnConsumed
    ensures Blocking(opts.blockOnConsumed, Incremented(lim, opts, s, k, override, n, now).0)
  {
    hide Ok, Without, CapFor, Place, SlidingIncrement, BucketIncrement;
    OkEntry(lim, s.inner, k);
  }

  lemma {:induction false} RunBlocking(lim: Limits, opts: Options, start: int, ops: seq<Op>)
    requires Fits(lim, opts)
    ensures Blocking(opts.blockOnConsumed, Run(lim, opts, start, ops).shield)
  {
    hide Ok, Without, Incremented, CacheOk, CapFor, Apply, Got, GetKey;
    if ops != [] {
      RunBlocking(lim, opts, start, ops[..|ops| - 1]);
      var w, op := Run(lim, opts, start, ops[..|ops| - 1]), ops[|ops| - 1];
      if Enabled(lim, opts, w, op) {
        match op {
          case Request(k, override, cost, now) => RequestBlocking(lim, opts, w.shield, k, override, CostOf(cost), now);
          case Sweep(now) => SweepDropsExactlyExpired(w.shield, now);
          case GetBoth(k, now) => GotShape(lim, w.shield, k, now);
          case _ =>
        }
      }
    }
  }

  /** The window a request at `now` is counted in: how much of it is used, and when it ends. */
  ghost function CountSeen(e: Option<KeyState>, now: int): (n: int) {
    if LiveEntry(e, now) then e.value.count else 0
  }

  ghost function EndSeen(w: int, e: Option<KeyState>, now: int): (t: int) {
    if LiveEntry(e, now) then e.value.resetTime else now + w
  }

  /**
   A cached key: the bare store's window ends when the cache entry does and is used up. Any other: both
   stores count in windows that end together, with the same count or both used up.
   */
  ghost predicate Alike(lim: Limits, opts: Options, w: World, k: Key, now: int)
    requires Fits(lim, opts)
  {
    var (cap, ms) := (opts.blockOnConsumed, lim.strategy.windowMs);
    var (e, b) := (Lookup(w.shield.inner, k), Lookup(w.bare, k));
    if Live(w.shield, k, now) then EndSeen(ms, b, now) == w.shield.cache[k].expiresAt && CountSeen(b, now) >= cap
    else EndSeen(ms, e, now) == EndSeen(ms, b, now)
         && (CountSeen(e, now) == CountSeen(b, now) || (CountSeen(e, now) >= cap && CountSeen(b, now) >= cap))
  }

  ghost predicate AnswerAlike(lim: Limits, opts: Options, w: World, k: Key, override: Option<int>, n: Cost, now: int)
    requires Fits(lim, opts) && WorldOk(lim, w)
  {
    SameAnswer(opts.blockOnConsumed, Incremented(lim, opts, w.shield, k, override, n, now).1,
      IncrementKey(lim, w.bare, k, override, n, now).1)
  }

  /** One request of any cost, from the windows it is counted in. */
  lemma AnswerSeen(cfg: Strategy, e: Option<KeyState>, override: Option<int>, n: Cost, now: int)
    requires cfg.Valid() && cfg.FixedWindow? && MatchesOption(cfg, e)
    ensures Increment(cfg, e, override, n, now).1
            == WindowResult(CountSeen(e, now) + n, CapFor(cfg, override), EndSeen(cfg.windowMs, e, now))
  {
    hide SlidingIncrement, BucketIncrement, Cut, CapFor;
  }

  lemma OneAnswerIff(lim: Limits, opts: Options, w: World, k: Key, override: Option<int>, n: Cost, now: int)
    requires Fits(lim, opts) && WorldOk(lim, w) && Blocking(opts.blockOnConsumed, w.shield)
    requires CapFor(lim.strategy, override) == opts.blockOnConsumed
    ensures Alike(lim, opts, w, k, now) ==> AnswerAlike(lim, opts, w, k, override, n, now)
    ensures n == 1 && AnswerAlike(lim, opts, w, k, override, n, now) ==> Alike(lim, opts, w, k, now)
  {
    FixedIncrementKey(lim, w.shield.inner, k, override, n, now, k);
    FixedIncrementKey(lim, w.bare, k, override, n, now, k);
    AnswerSeen(lim.strategy, Lookup(w.shield.inner, k), override, n, now);
    AnswerSeen(lim.strategy, Lookup(w.bare, k), override, n, now);
    assert Live(w.shield, k, now) ==> BlockingEntry(opts.blockOnConsumed, w.shield.cache[k]);
    hide Ok, IncrementKey, Increment, CapFor, CacheOk, Without;
  }

  /**
   After any run, evictions included: requests of every cost get the same answer from both exactly when the two
   windows are alike.
   */
  lemma RequestsAgreeIff(lim: Limits, opts: Options, start: int, ops: seq<Op>, k: Key, override: Option<int>, now: int)
    requires Fits(lim, opts) && CapFor(lim.strategy, override) == opts.blockOnConsumed
    ensures var w := Run(lim, opts, start, ops);
            (forall n: Cost :: AnswerAlike(lim, opts, w, k, override, n, now)) <==> Alike(lim, opts, w, k, now)
  {
    hide Ok, Run, CapFor, AnswerAlike, Alike, Blocking;
    var w := Run(lim, opts, start, ops);
    RunBlocking(lim, opts, start, ops);
    forall n: Cost ensures Alike(lim, opts, w, k, now) ==> AnswerAlike(lim, opts, w, k, override, n, now) {
      OneAnswerIff(lim, opts, w, k, override, n, now);
    }
    OneAnswerIff(lim, opts, w, k, override, 1, now);
  }

  // ----- where shield and store part ways ----------------------------------------------------

  lemma RunSnoc(lim: Limits, opts: Options, start: int, ops: seq<Op>, op: Op)
    requires Fits(lim, opts)
    ensures Run(lim, opts, start, ops + [op]) == Step(lim, opts, Run(lim, opts, start, ops), op)
  {
    hide Ok, Next;
    assert (ops + [op])[..|ops|] == ops;
  }

  /** The first request of a store with cap one: allowed, counted, and cached. */
  lemma FirstRequest(lim: Limits, opts: Options, k: Key)
    requires lim.strategy == FixedWindow(1000, 1) && opts == Options(1, None, 0)
    ensures Fits(lim, opts)
    ensures var w := Run(lim, opts, 0, [Request(k, None, 1, 0)]);
            && Lookup(w.shield.inner, k) == Some(Fixed(1, 1000)) == Lookup(w.bare, k) && w.clock == 0
            && w.shield.cache == map[k := Cached(1000, Result(1, 0, 1000, true))] && w.shield.inner == w.bare
            && w.bare.order == [k] && w.bare.entries == map[k := Fixed(1, 1000)] && w.bare.evicted == []
  {
    hide Ok, Without;
    var op := Request(k, None, 1, 0);
    RunSnoc(lim, opts, 0, [], op);
    assert [] + [op] == [op];
    var w0 := Run(lim, opts, 0, []);
    FirstInsert(lim, k);
    assert [] + [k] == [k];
  }

  lemma FirstInsert(lim: Limits, k: Key)
    requires lim.strategy == FixedWindow(1000, 1) && Ok(lim, EMPTY)
    ensures IncrementKey(lim, EMPTY, k, None, 1, 0)
            == (Mem([k], map[k := Fixed(1, 1000)], []), Result(1, 0, 1000, false))
  {
    hide Ok;
    assert MakeRoom(lim, EMPTY, 0) == EMPTY;
    assert Increment(lim.strategy, None, None, 1, 0) == (Fixed(1, 1000), Result(1, 0, 1000, false));
    assert [] + [k] == [k];
  }

  lemma EvictingInsert(lim: Limits, a: Key, b: Key)
    requires lim == Limits(FixedWindow(1000, 1), 1) && a != b
    ensures var m := Mem([a], map[a := Fixed(1, 1000)], []);
            Ok(lim, m)
              && IncrementKey(lim, m, b, None, 1, 1)
                == (Mem([b], map[b := Fixed(1, 1001)], [Eviction(a, LruCap)]), Result(1, 0, 1001, false))
  {
    var m := Mem([a], map[a := Fixed(1, 1000)], []);
    assert m.order[1..] == [] && Distinct([]);
    var r := DropHead(lim, m, 1);
    assert r == Mem([], map[], [Eviction(a, LruCap)]);
    hide Ok;
    assert MakeRoom(lim, r, 1) == r;
    assert MakeRoom(lim, m, 1) == r;
    assert EnsureRoom(lim, m, b, 1) == r;
    assert [] + [b] == [b];
  }

  /**
   A store that holds one key: `a` uses up its window and is cached, `b` evicts it from both stores, and
   then `a` is blocked by the cache while the bare store has forgotten it.
   */
  lemma EvictionCanDisagree(a: Key, b: Key)
    requires a != b
    ensures var (lim, opts) := (Limits(FixedWindow(1000, 1), 1), Options(1, None, 0));
            Fits(lim, opts) &&
            var w := Run(lim, opts, 0, [Request(a, None, 1, 0), Request(b, None, 1, 1)]);
            && !NeverEvicted(w, a)
            && Incremented(lim, opts, w.shield, a, None, 1, 2).1.isBlocked
            && !IncrementKey(lim, w.bare, a, None, 1, 2).1.isBlocked
  {
    hide Ok, Without, IncrementKey;
    var (lim, opts) := (Limits(FixedWindow(1000, 1), 1), Options(1, None, 0));
    var (first, second) := (Request(a, None, 1, 0), Request(b, None, 1, 1));
    FirstRequest(lim, opts, a);
    RunSnoc(lim, opts, 0, [first], second);
    assert [first] + [second] == [first, second];
    EvictingInsert(lim, a, b);
    var w := Run(lim, opts, 0, [first, second]);
    hide Run;
    FixedIncrementKey(lim, w.bare, a, None, 1, 2, a);
  }

  // ----- reads -----------------------------------------------------------------------------------

  /**
   While neither store evicted the key live, reads differ exactly at the cap: a cached key reads as blocked
   although the bare store has exactly the cap, and a key that is not cached differs when one of the two
   stores has exactly the cap and the other is past it.
   */
  lemma ReadDiffersIff(lim: Limits, opts: Options, start: int, ops: seq<Op>, k: Key, now: int)
    requires Fits(lim, opts) && opts.blockOnConsumed == lim.strategy.maxRequests
    requires Run(lim, opts, start, ops).clock <= now
    requires NeverEvicted(Run(lim, opts, start, ops), k)
    ensures var w := Run(lim, opts, start, ops);
            Ok(lim, w.bare) && lim.strategy.Valid()
              && (k in w.bare.entries ==> Matches(lim.strategy, w.bare.entries[k]))
    ensures var w := Run(lim, opts, start, ops);
            var (a, b) := (Got(lim, w.shield, k, now).1, GetKey(lim, w.bare, k, now).1);
            && (a.Some? <==> LiveEntry(Lookup(w.bare, k), now)) && (b.Some? <==> LiveEntry(Lookup(w.bare, k), now))
            && (a.Some? ==> (a.value.isBlocked != b.value.isBlocked <==> AtTheCap(opts.blockOnConsumed, w, k, now)))
  {
    hide Ok, Run, NeverEvicted;
    var w := Run(lim, opts, start, ops);
    OkEntry(lim, w.bare, k);
    OkEntry(lim, w.shield.inner, k);
    RunRelated(lim, opts, start, ops, k);
    RelatedLater(opts.blockOnConsumed, w, k, now);
  }

  ghost predicate AtTheCap(cap: int, w: World, k: Key, now: int) {
    var (inner, bare) := (CountSeen(Lookup(w.shield.inner, k), now), CountSeen(Lookup(w.bare, k), now));
    if Live(w.shield, k, now) then bare == cap else (inner == cap) != (bare == cap)
  }

  /** Cached at the cap: after one request of a cap of one, the shield reads as blocked and the bare store as open. */
  lemma CachedReadDiffers(k: Key)
    ensures var (lim, opts) := (Limits(FixedWindow(1000, 1), 0), Options(1, None, 0));
            Fits(lim, opts) &&
            var w := Run(lim, opts, 0, [Request(k, None, 1, 0)]);
            && Lookup(w.bare, k) == Some(Fixed(1, 1000)) && NeverEvicted(w, k) && AtTheCap(1, w, k, 1)
            && Got(lim, w.shield, k, 1).1 == Some(Result(1, 0, 1000, true))
            && Peek(lim, Fixed(1, 1000), 1) == Some(Result(1, 0, 1000, false))
  {
    hide Ok, Run;
    FirstRequest(Limits(FixedWindow(1000, 1), 0), Options(1, None, 0), k);
  }

  /** A second request, absorbed by the cache: only the bare store counts it. */
  lemma SecondAbsorbed(lim: Limits, opts: Options, k: Key)
    requires lim == Limits(FixedWindow(1000, 1), 0) && opts == Options(1, None, 0)
    ensures Fits(lim, opts)
    ensures var (v, w) := (Run(lim, opts, 0, [Request(k, None, 1, 0)]),
              Run(lim, opts, 0, [Request(k, None, 1, 0), Request(k, None, 1, 1)]));
            && w.shield == v.shield && w.clock == 1 && Lookup(w.bare, k) == Some(Fixed(2, 1000)) && Spared(w.bare, k)
            && Lookup(w.shield.inner, k) == Some(Fixed(1, 1000)) && Spared(w.shield.inner, k)
            && w.shield.cache == map[k := Cached(1000, Result(1, 0, 1000, true))]
  {
    hide Ok, Without, MakeRoom;
    FirstRequest(lim, opts, k);
    var (first, second) := (Request(k, None, 1, 0), Request(k, None, 1, 1));
    RunSnoc(lim, opts, 0, [first], second);
    assert [first] + [second] == [first, second];
    hide Run;
  }

  /** Unshielded after an absorbed hit: the shielded store reads as open and the bare one as blocked. */
  lemma UnshieldedReadDiffers(k: Key)
    ensures var (lim, opts) := (Limits(FixedWindow(1000, 1), 0), Options(1, None, 0));
            Fits(lim, opts) &&
            var w := Run(lim, opts, 0, [Request(k, None, 1, 0), Request(k, None, 1, 1), UnshieldKey(k)]);
            && Lookup(w.bare, k) == Some(Fixed(2, 1000)) && NeverEvicted(w, k) && AtTheCap(1, w, k, 2)
            && Got(lim, w.shield, k, 2).1 == Some(Result(1, 0, 1000, false))
            && Peek(lim, Fixed(2, 1000), 2) == Some(Result(2, 0, 1000, true))
  {
    hide Ok, Without;
    var (lim, opts) := (Limits(FixedWindow(1000, 1), 0), Options(1, None, 0));
    SecondAbsorbed(lim, opts, k);
    var ops := [Request(k, None, 1, 0), Request(k, None, 1, 1)];
    RunSnoc(lim, opts, 0, ops, UnshieldKey(k));
    assert ops + [UnshieldKey(k)] == [Request(k, None, 1, 0), Request(k, None, 1, 1), UnshieldKey(k)];
    hide Run;
  }

  // ----- decrements ------------------------------------------------------------------------------

  /** The world after a decrement through the shield and of the bare store. */
  ghost function AfterDecrement(lim: Limits, w: World, k: Key, n: Cost, newest: bool): (r: World)
    requires WorldOk(lim, w)
    ensures WorldOk(lim, r)
  {
    OkEntry(lim, w.bare, k);
    DecrementKeyOk(lim, w.bare, k, n, newest);
    World(Decremented(lim, w.shield, k, n, newest), DecrementKey(lim, w.bare, k, n, newest), w.clock)
  }

  /** No hit was absorbed by the cache, or both windows stay used up, or both become empty. */
  ghost predicate InStep(cap: int, e: int, b: int, n: Cost) {
    e == b || (e - n >= cap && b - n >= cap) || (e <= n && b <= n)
  }

  lemma DecrementEntries(cfg: Strategy, cap: int, e: Option<KeyState>, b: Option<KeyState>, n: Cost, newest: bool,
      now: int)
    requires cfg.Valid() && cfg.FixedWindow? && MatchesOption(cfg, e) && MatchesOption(cfg, b) && cap >= 1
    requires SameWindow(cap, e, b, now)
    ensures var (e2, b2) := (DecrementOption(cfg, e, n, newest), DecrementOption(cfg, b, n, newest));
            && EndSeen(cfg.windowMs, e2, now) == EndSeen(cfg.windowMs, b2, now)
               && (CountSeen(e2, now) == CountSeen(b2, now) || (CountSeen(e2, now) >= cap && CountSeen(b2, now) >= cap))
            <==> !LiveEntry(b, now) || InStep(cap, CountSeen(e, now), CountSeen(b, now), n)
  {
  }

  lemma DecrementAlike(lim: Limits, opts: Options, w: World, k: Key, n: Cost, newest: bool, now: int)
    requires Fits(lim, opts) && WorldOk(lim, w) && Related(opts.blockOnConsumed, w, k) && w.clock <= now
    ensures Alike(lim, opts, AfterDecrement(lim, w, k, n, newest), k, now)
            <==> !LiveEntry(Lookup(w.bare, k), now)
                 || InStep(opts.blockOnConsumed, CountSeen(Lookup(w.shield.inner, k), now),
                   CountSeen(Lookup(w.bare, k), now), n)
  {
    RelatedLater(opts.blockOnConsumed, w, k, now);
    OkEntry(lim, w.bare, k);
    OkEntry(lim, w.shield.inner, k);
    DecrementEntries(lim.strategy, opts.blockOnConsumed, Lookup(w.shield.inner, k), Lookup(w.bare, k), n, newest, now);
    hide Ok, CacheOk, Decrement, EndSeen, CountSeen, InStep, SameWindow, CacheSound, Without;
  }

  /**
   A decrement after any run in which neither store evicted the key live: afterwards requests of every cost get the
   same answer from both exactly when the window was over, no hit had been absorbed by the cache, both windows stay
   used up, or both become empty.
   */
  lemma DecrementAgreesIff(
    lim: Limits, opts: Options, start: int, ops: seq<Op>, k: Key, n: Cost, newest: bool, override: Option<int>,
      now: int)
    requires Fits(lim, opts) && CapFor(lim.strategy, override) == opts.blockOnConsumed
    requires Run(lim, opts, start, ops).clock <= now && NeverEvicted(Run(lim, opts, start, ops), k)
    ensures var w := Run(lim, opts, start, ops);
            (forall c: Cost :: AnswerAlike(lim, opts, AfterDecrement(lim, w, k, n, newest), k, override, c, now))
            <==> !LiveEntry(Lookup(w.bare, k), now)
                 || InStep(opts.blockOnConsumed, CountSeen(Lookup(w.shield.inner, k), now),
                   CountSeen(Lookup(w.bare, k), now), n)
  {
    hide Ok, Run, CapFor, AnswerAlike, Alike, Related, NeverEvicted, AfterDecrement, InStep, CountSeen, WorldOk;
    var w := Run(lim, opts, start, ops);
    RunRelated(lim, opts, start, ops, k);
    RunBlocking(lim, opts, start, ops);
    DecrementAlike(lim, opts, w, k, n, newest, now);
    DecrementBlocking(lim, opts.blockOnConsumed, w, k, n, newest);
    var r := AfterDecrement(lim, w, k, n, newest);
    forall c: Cost ensures Alike(lim, opts, r, k, now) ==> AnswerAlike(lim, opts, r, k, override, c, now) {
      OneAnswerIff(lim, opts, r, k, override, c, now);
    }
    OneAnswerIff(lim, opts, r, k, override, 1, now);
  }

  lemma DecrementBlocking(lim: Limits, cap: int, w: World, k: Key, n: Cost, newest: bool)
    requires WorldOk(lim, w) && Blocking(cap, w.shield)
    ensures Blocking(cap, AfterDecrement(lim, w, k, n, newest).shield)
  {
    hide Ok, CacheOk, DecrementKey, Without, BlockingEntry;
  }

  /**
   With a cap of one: a hit, a hit absorbed by the cache, and a decrement leave the shielded store with room where the
   bare one has none.
   */
  lemma DecrementCanDisagree(k: Key)
    ensures var (lim, opts) := (Limits(FixedWindow(1000, 1), 0), Options(1, None, 0));
            Fits(lim, opts) &&
            var w := Run(lim, opts, 0, [Request(k, None, 1, 0), Request(k, None, 1, 1)]);
            var s := Decremented(lim, w.shield, k, 1, false);
            var b := Lookup(w.bare, k);
            && b == Some(Fixed(2, 1000))
            && !Incremented(lim, opts, s, k, None, 1, 2).1.isBlocked
            && Increment(lim.strategy, DecrementOption(lim.strategy, b, 1, false), None, 1, 2).1.isBlocked
  {
    hide Ok, Without, Run;
    var (lim, opts) := (Limits(FixedWindow(1000, 1), 0), Options(1, None, 0));
    SecondAbsorbed(lim, opts, k);
    var w := Run(lim, opts, 0, [Request(k, None, 1, 0), Request(k, None, 1, 1)]);
    var s := Decremented(lim, w.shield, k, 1, false);
    FixedIncrementKey(lim, s.inner, k, None, 1, 2, k);
  }
}
