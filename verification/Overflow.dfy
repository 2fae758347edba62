/**
 Mode `overflow`: every request is charged to the primary store, and to the burst store when
 the primary blocks it. Together they admit no more than both caps in the shorter window.
 */
module Overflow {
  import opened Entries
  import opened EntryLaws
  import opened MemoryTable
  import opened SlidingRuns
  import opened FewKeys
  import opened Composition

  /** The two layers: what never changes of them. */
  datatype Setup = Setup(primary: Limits, burst: Limits, primaryKey: Key -> Key, burstKey: Key -> Key,
                         primaryCap: Option<int>, burstCap: Option<int>)

  /** `frames[k]` is the stack of layers that consumed for key `k`: 0 is the primary, 1 the burst layer. */
  datatype Pair = Pair(primary: Mem, burst: Mem, frames: map<Key, seq<nat>>)

  ghost predicate OkPair(cfg: Setup, s: Pair) {
    Ok(cfg.primary, s.primary) && Ok(cfg.burst, s.burst) && forall k :: k in s.frames ==> s.frames[k] != []
  }

  function FramesOf(frames: map<Key, seq<nat>>, k: Key): (f: seq<nat>) {
    if k in frames then frames[k] else []
  }

  function PushFrame(frames: map<Key, seq<nat>>, k: Key, layer: nat): (r: map<Key, seq<nat>>) {
    frames[k := FramesOf(frames, k) + [layer]]
  }

  function PopFrame(frames: map<Key, seq<nat>>, k: Key): (r: map<Key, seq<nat>>) {
    if |FramesOf(frames, k)| <= 1 then frames - {k} else frames[k := frames[k][..|frames[k]| - 1]]
  }

  function BurstResult(pr: Result, br: Result): (r: Result) {
    Result(if br.isBlocked then Max(pr.totalHits, br.totalHits) else pr.totalHits,
           if br.isBlocked then 0 else br.remaining, Min(pr.resetTime, br.resetTime), br.isBlocked)
  }

  ghost function Called(cfg: Setup, s: Pair, k: Key, cap: Option<int>, n: Cost, now: int): (r: (Pair, Result))
    requires OkPair(cfg, s)
    ensures OkPair(cfg, r.0)
  {
    var (pk, bk) := (cfg.primaryKey(k), cfg.burstKey(k));
    IncrementKeyOk(cfg.primary, s.primary, pk, CapOf(cfg.primaryCap, cap), n, now);
    IncrementKeyOk(cfg.burst, s.burst, bk, CapOf(cfg.burstCap, cap), n, now);
    var (p, pr) := IncrementKey(cfg.primary, s.primary, pk, CapOf(cfg.primaryCap, cap), n, now);
    if !pr.isBlocked then (Pair(p, s.burst, PushFrame(s.frames, k, 0)), pr)
    else
      var (b, br) := IncrementKey(cfg.burst, s.burst, bk, CapOf(cfg.burstCap, cap), n, now);
      (Pair(p, b, if br.isBlocked then s.frames else PushFrame(s.frames, k, 1)), BurstResult(pr, br))
  }

  /** Only the layer that consumed last gives back. */
  ghost function Returned(cfg: Setup, s: Pair, k: Key, n: Cost, removeNewest: bool): (r: Pair)
    requires OkPair(cfg, s)
    ensures OkPair(cfg, r)
  {
    var (pk, bk) := (cfg.primaryKey(k), cfg.burstKey(k));
    OkEntry(cfg.primary, s.primary, pk);
    OkEntry(cfg.burst, s.burst, bk);
    DecrementKeyOk(cfg.primary, s.primary, pk, n, removeNewest);
    DecrementKeyOk(cfg.burst, s.burst, bk, n, removeNewest);
    var f := FramesOf(s.frames, k);
    if f == [] then s
    else if f[|f| - 1] == 0 then
      Pair(DecrementKey(cfg.primary, s.primary, pk, n, removeNewest), s.burst, PopFrame(s.frames, k))
    else Pair(s.primary, DecrementKey(cfg.burst, s.burst, bk, n, removeNewest), PopFrame(s.frames, k))
  }

  // ----- runs -----------------------------------------------------------------------------

  datatype Op =
    | Call(key: Key, cap: Option<int>, cost: int, now: int)
    | PrimaryPurge(now: int)
    | BurstPurge(now: int)

  ghost predicate BothSliding(cfg: Setup) {
    cfg.primary.strategy.Valid() && cfg.primary.strategy.SlidingWindow? && cfg.burst.strategy.Valid()
      && cfg.burst.strategy.SlidingWindow?
  }

  ghost function RunStep(cfg: Setup, s: Pair, op: Op): (r: Pair)
    requires OkPair(cfg, s)
    ensures OkPair(cfg, r)
  {
    match op
    case Call(k, cap, cost, now) => Called(cfg, s, k, cap, CostOf(cost), now).0
    case PrimaryPurge(now) => s.(primary := Purge(cfg.primary, s.primary, now))
    case BurstPurge(now) => s.(burst := Purge(cfg.burst, s.burst, now))
  }

  ghost function Run(cfg: Setup, ops: seq<Op>): (s: Pair)
    requires BothSliding(cfg)
    ensures OkPair(cfg, s)
  {
    if ops == [] then Pair(EMPTY, EMPTY, map[]) else RunStep(cfg, Run(cfg, ops[..|ops| - 1]), ops[|ops| - 1])
  }

  ghost function LogOf(cfg: Setup, s: Pair, op: Op): (log: seq<Charge>)
    requires OkPair(cfg, s)
    ensures |log| <= 1
  {
    if op.Call? then
      var res := Called(cfg, s, op.key, op.cap, CostOf(op.cost), op.now).1;
      [Charge(op.key, op.now, CostOf(op.cost), !res.isBlocked)]
    else []
  }

  /** Every request as the caller saw it. */
  ghost function Log(cfg: Setup, ops: seq<Op>): (log: seq<Charge>)
    requires BothSliding(cfg)
  {
    if ops == [] then [] else Log(cfg, ops[..|ops| - 1]) + LogOf(cfg, Run(cfg, ops[..|ops| - 1]), ops[|ops| - 1])
  }

  // ----- each store sees an ordinary run -------------------------------------------------------

  ghost function PrimaryInc(cfg: Setup, op: Op): (r: StoreOp)
    requires op.Call?
  {
    Inc(cfg.primaryKey(op.key), CapOf(cfg.primaryCap, op.cap), op.cost, op.now)
  }

  ghost function BurstInc(cfg: Setup, op: Op): (r: StoreOp)
    requires op.Call?
  {
    Inc(cfg.burstKey(op.key), CapOf(cfg.burstCap, op.cap), op.cost, op.now)
  }

  ghost predicate Spills(cfg: Setup, m: Mem, op: Op)
    requires Ok(cfg.primary, m)
  {
    op.Call? && Apply(cfg.primary, m, PrimaryInc(cfg, op)).1.value.isBlocked
  }

  ghost function PrimaryStep(cfg: Setup, op: Op): (r: seq<StoreOp>)
    ensures |r| <= 1
  {
    if op.Call? then [PrimaryInc(cfg, op)] else if op.PrimaryPurge? then [PurgeTick(op.now)] else []
  }

  ghost function BurstStep(cfg: Setup, s: Pair, op: Op): (r: seq<StoreOp>)
    requires OkPair(cfg, s)
    ensures |r| <= 1
  {
    if Spills(cfg, s.primary, op) then [BurstInc(cfg, op)] else if op.BurstPurge? then [PurgeTick(op.now)] else []
  }

  ghost function PrimaryOps(cfg: Setup, ops: seq<Op>): (r: seq<StoreOp>) {
    if ops == [] then [] else PrimaryOps(cfg, ops[..|ops| - 1]) + PrimaryStep(cfg, ops[|ops| - 1])
  }

  ghost function BurstOps(cfg: Setup, ops: seq<Op>): (r: seq<StoreOp>)
    requires BothSliding(cfg)
  {
    if ops == [] then []
    else BurstOps(cfg, ops[..|ops| - 1]) + BurstStep(cfg, Run(cfg, ops[..|ops| - 1]), ops[|ops| - 1])
  }

  ghost function ApplyAll(lim: Limits, m: Mem, more: seq<StoreOp>): (r: Mem)
    requires Ok(lim, m) && |more| <= 1
  {
    if more == [] then m else Apply(lim, m, more[0]).0
  }

  ghost function ChargedAll(lim: Limits, m: Mem, more: seq<StoreOp>): (r: seq<Charge>)
    requires Ok(lim, m) && |more| <= 1
    ensures |r| <= 1
  {
    if more == [] then [] else Charged(lim, m, more[0])
  }

  lemma ExecMore(lim: Limits, ops: seq<StoreOp>, more: seq<StoreOp>)
    requires lim.strategy.Valid() && |more| <= 1
    ensures Exec(lim, ops + more) == ApplyAll(lim, Exec(lim, ops), more)
    ensures Charges(lim, ops + more) == Charges(lim, ops) + ChargedAll(lim, Exec(lim, ops), more)
  {
    hide Ok, Apply, Charged;
    if more == [] {
      assert ops + more == ops;
      assert Charges(lim, ops) + [] == Charges(lim, ops);
    } else {
      assert (ops + more)[..|ops|] == ops;
    }
  }

  lemma StepOnStores(cfg: Setup, s: Pair, op: Op)
    requires OkPair(cfg, s)
    ensures RunStep(cfg, s, op).primary == ApplyAll(cfg.primary, s.primary, PrimaryStep(cfg, op))
    ensures RunStep(cfg, s, op).burst == ApplyAll(cfg.burst, s.burst, BurstStep(cfg, s, op))
  {
    hide Ok, IncrementKey, Purge;
  }

  /** The primary runs all the requests, the burst store exactly those that the primary blocked. */
  lemma {:induction false} StoresSeeOrdinaryRuns(cfg: Setup, ops: seq<Op>)
    requires BothSliding(cfg)
    ensures Run(cfg, ops).primary == Exec(cfg.primary, PrimaryOps(cfg, ops))
    ensures Run(cfg, ops).burst == Exec(cfg.burst, BurstOps(cfg, ops))
  {
    hide Ok, RunStep, PrimaryStep, BurstStep, ApplyAll, Apply;
    if ops != [] {
      var (init, op) := (ops[..|ops| - 1], ops[|ops| - 1]);
      StoresSeeOrdinaryRuns(cfg, init);
      StepOnStores(cfg, Run(cfg, init), op);
      ExecMore(cfg.primary, PrimaryOps(cfg, init), PrimaryStep(cfg, op));
      ExecMore(cfg.burst, BurstOps(cfg, init), BurstStep(cfg, Run(cfg, init), op));
    }
  }

  ghost function Both(cfg: Setup, ops: seq<Op>, k: Key, last: int): (n: nat)
    requires BothSliding(cfg)
  {
    AdmittedIn(Charges(cfg.primary, PrimaryOps(cfg, ops)), cfg.primaryKey(k), cfg.primary.strategy.windowMs, last)
    + AdmittedIn(Charges(cfg.burst, BurstOps(cfg, ops)), cfg.burstKey(k), cfg.burst.strategy.windowMs, last)
  }

  ghost function ShorterWindow(cfg: Setup): (w: int)
    requires BothSliding(cfg)
  {
    Min(cfg.primary.strategy.windowMs, cfg.burst.strategy.windowMs)
  }

  lemma AdmittedMore(log: seq<Charge>, more: seq<Charge>, k: Key, w: int, last: int)
    requires |more| <= 1
    ensures AdmittedIn(log + more, k, w, last) == AdmittedIn(log, k, w, last) + AdmittedIn(more, k, w, last)
    ensures more == [] ==> AdmittedIn(more, k, w, last) == 0
    ensures more != [] ==> AdmittedIn(more, k, w, last)
                           == if more[0].key == k && more[0].allowed && last - w < more[0].at <= last
                              then more[0].cost else 0
  {
    assert AdmittedIn([], k, w, last) == 0;
    hide AdmittedIn;
    if more == [] {
      assert log + more == log;
    } else {
      assert more == [more[0]] == [] + [more[0]];
      AdmittedSnoc(log, more[0], k, w, last);
      AdmittedSnoc([], more[0], k, w, last);
    }
  }

  /** A request that the caller sees admitted was admitted by one of the stores. */
  lemma StepAdmits(cfg: Setup, s: Pair, op: Op, k: Key, last: int)
    requires BothSliding(cfg) && OkPair(cfg, s)
    ensures AdmittedIn(LogOf(cfg, s, op), k, ShorterWindow(cfg), last)
            <= AdmittedIn(ChargedAll(cfg.primary, s.primary, PrimaryStep(cfg, op)), cfg.primaryKey(k),
              cfg.primary.strategy.windowMs, last)
               + AdmittedIn(ChargedAll(cfg.burst, s.burst, BurstStep(cfg, s, op)), cfg.burstKey(k),
                 cfg.burst.strategy.windowMs, last)
  {
    hide Ok, IncrementKey, AdmittedIn, Purge;
    AdmittedMore([], LogOf(cfg, s, op), k, ShorterWindow(cfg), last);
    AdmittedMore([], ChargedAll(cfg.primary, s.primary, PrimaryStep(cfg, op)), cfg.primaryKey(k),
      cfg.primary.strategy.windowMs, last);
    AdmittedMore([], ChargedAll(cfg.burst, s.burst, BurstStep(cfg, s, op)), cfg.burstKey(k),
      cfg.burst.strategy.windowMs, last);
  }

  lemma {:induction false} AdmittedByOneOfThem(cfg: Setup, ops: seq<Op>, k: Key, last: int)
    requires BothSliding(cfg)
    ensures AdmittedIn(Log(cfg, ops), k, ShorterWindow(cfg), last) <= Both(cfg, ops, k, last)
  {
    hide Ok, Exec, Run, ChargedAll, LogOf, PrimaryStep, BurstStep, RunStep, Charges, AdmittedIn;
    if ops == [] {
      AdmittedMore([], [], k, ShorterWindow(cfg), last);
    } else {
      var (init, op) := (ops[..|ops| - 1], ops[|ops| - 1]);
      var s := Run(cfg, init);
      AdmittedByOneOfThem(cfg, init, k, last);
      StoresSeeOrdinaryRuns(cfg, init);
      ExecMore(cfg.primary, PrimaryOps(cfg, init), PrimaryStep(cfg, op));
      ExecMore(cfg.burst, BurstOps(cfg, init), BurstStep(cfg, s, op));
      StepAdmits(cfg, s, op, k, last);
      AdmittedMore(Log(cfg, init), LogOf(cfg, s, op), k, ShorterWindow(cfg), last);
      AdmittedMore(Charges(cfg.primary, PrimaryOps(cfg, init)),
        ChargedAll(cfg.primary, s.primary, PrimaryStep(cfg, op)),
                   cfg.primaryKey(k), cfg.primary.strategy.windowMs, last);
      AdmittedMore(Charges(cfg.burst, BurstOps(cfg, init)), ChargedAll(cfg.burst, s.burst, BurstStep(cfg, s, op)),
                   cfg.burstKey(k), cfg.burst.strategy.windowMs, last);
    }
  }

  // ----- what the stores' runs inherit ------------------------------------------------------

  /** The clock does not run backwards, and has not passed `end`. */
  ghost predicate InClockOrder(ops: seq<Op>, end: int) {
    ops == [] || (ops[|ops| - 1].now <= end && InClockOrder(ops[..|ops| - 1], ops[|ops| - 1].now))
  }

  lemma {:induction false} ForwardLater(ops: seq<StoreOp>, now: int, later: int)
    requires Forward(ops, now) && now <= later
    ensures Forward(ops, later)
  {
    if ops != [] && TimeOf(ops[|ops| - 1]).None? {
      ForwardLater(ops[..|ops| - 1], now, later);
    }
  }

  lemma ForwardMore(ops: seq<StoreOp>, more: seq<StoreOp>, now: int)
    requires Forward(ops, now) && |more| <= 1
    requires more != [] ==> TimeOf(more[0]) == Some(now)
    ensures Forward(ops + more, now)
  {
    if more == [] {
      assert ops + more == ops;
    } else {
      assert (ops + more)[..|ops|] == ops;
    }
  }

  /** What one operation of the composition is for a store: at most one operation, that takes and is held to the cap. */
  ghost predicate Tame(lim: Limits, more: seq<StoreOp>, now: int, k: Key, cap: int, keys: set<Key>) {
    && |more| <= 1
    && (more != [] ==> TimeOf(more[0]) == Some(now) && Takes(more[0], k) && OneHeldTo(lim, more[0], k, cap)
                       && (KeyOf(more[0]).Some? ==> KeyOf(more[0]).value in keys))
  }

  /** A store's run that is in order, takes only, is held to the cap and stays with its keys. */
  ghost predicate Orderly(lim: Limits, ops: seq<StoreOp>, now: int, k: Key, cap: int, keys: set<Key>) {
    Forward(ops, now) && AllTake(ops, k) && HeldTo(lim, ops, k, cap) && KeysWithin(ops, keys)
  }

  lemma OrderlyMore(lim: Limits, ops: seq<StoreOp>, more: seq<StoreOp>, before: int, now: int, k: Key, cap: int,
      keys: set<Key>)
    requires Orderly(lim, ops, before, k, cap, keys) && before <= now && Tame(lim, more, now, k, cap, keys)
    ensures Orderly(lim, ops + more, now, k, cap, keys)
  {
    hide Takes, OneHeldTo, Forward;
    ForwardLater(ops, before, now);
    ForwardMore(ops, more, now);
  }

  /** The storage keys of the two layers. */
  datatype Keys = Keys(primary: set<Key>, burst: set<Key>)

  /** Every request that shares `k`'s quota in a store is held to its cap, and all keys are among these. */
  ghost predicate CallOk(cfg: Setup, op: Op, k: Key, primaryCap: int, burstCap: int, keys: Keys) {
    op.Call? ==>
      && OneHeldTo(cfg.primary, PrimaryInc(cfg, op), cfg.primaryKey(k), primaryCap)
        && cfg.primaryKey(op.key) in keys.primary
      && OneHeldTo(cfg.burst, BurstInc(cfg, op), cfg.burstKey(k), burstCap) && cfg.burstKey(op.key) in keys.burst
  }

  ghost predicate CallsOk(cfg: Setup, ops: seq<Op>, k: Key, primaryCap: int, burstCap: int, keys: Keys) {
    forall i :: 0 <= i < |ops| ==> CallOk(cfg, ops[i], k, primaryCap, burstCap, keys)
  }

  lemma StepTame(cfg: Setup, s: Pair, op: Op, k: Key, primaryCap: int, burstCap: int, keys: Keys)
    requires OkPair(cfg, s) && CallOk(cfg, op, k, primaryCap, burstCap, keys)
    ensures Tame(cfg.primary, PrimaryStep(cfg, op), op.now, cfg.primaryKey(k), primaryCap, keys.primary)
    ensures Tame(cfg.burst, BurstStep(cfg, s, op), op.now, cfg.burstKey(k), burstCap, keys.burst)
  {
    hide Ok, Apply, CapFor;
  }

  lemma {:induction false} StoresOrderly(
    cfg: Setup, ops: seq<Op>, end: int, k: Key, primaryCap: int, burstCap: int, keys: Keys)
    requires BothSliding(cfg) && InClockOrder(ops, end) && CallsOk(cfg, ops, k, primaryCap, burstCap, keys)
    ensures Orderly(cfg.primary, PrimaryOps(cfg, ops), end, cfg.primaryKey(k), primaryCap, keys.primary)
    ensures Orderly(cfg.burst, BurstOps(cfg, ops), end, cfg.burstKey(k), burstCap, keys.burst)
  {
    if ops == [] {
      NothingOrderly(cfg.primary, end, cfg.primaryKey(k), primaryCap, keys.primary);
      NothingOrderly(cfg.burst, end, cfg.burstKey(k), burstCap, keys.burst);
    } else {
      var (init, op) := (ops[..|ops| - 1], ops[|ops| - 1]);
      hide Orderly, Tame, PrimaryStep, BurstStep, Run, CallOk, Ok;
      StoresOrderly(cfg, init, op.now, k, primaryCap, burstCap, keys);
      var s := Run(cfg, init);
      StepTame(cfg, s, op, k, primaryCap, burstCap, keys);
      OrderlyMore(cfg.primary, PrimaryOps(cfg, init), PrimaryStep(cfg, op), op.now, op.now, cfg.primaryKey(k),
        primaryCap, keys.primary);
      OrderlyMore(cfg.burst, BurstOps(cfg, init), BurstStep(cfg, s, op), op.now, op.now, cfg.burstKey(k), burstCap,
        keys.burst);
      OrderlyLater(cfg.primary, PrimaryOps(cfg, ops), op.now, end, cfg.primaryKey(k), primaryCap, keys.primary);
      OrderlyLater(cfg.burst, BurstOps(cfg, ops), op.now, end, cfg.burstKey(k), burstCap, keys.burst);
    }
  }

  lemma NothingOrderly(lim: Limits, now: int, k: Key, cap: int, keys: set<Key>)
    ensures Orderly(lim, [], now, k, cap, keys)
  {
  }

  lemma OrderlyLater(lim: Limits, ops: seq<StoreOp>, now: int, later: int, k: Key, cap: int, keys: set<Key>)
    requires Orderly(lim, ops, now, k, cap, keys) && now <= later
    ensures Orderly(lim, ops, later, k, cap, keys)
  {
    hide AllTake, HeldTo, KeysWithin, Forward;
    ForwardLater(ops, now, later);
  }

  /**
   The cost admitted in any window of the shorter length is within the sum of both caps, unless a store evicts the key
   live.
   */
  lemma AdmittedWithinBothCaps(
    cfg: Setup, ops: seq<Op>, end: int, k: Key, last: int, primaryCap: int, burstCap: int, keys: Keys)
    requires BothSliding(cfg) && primaryCap >= 0 && burstCap >= 0
    requires InClockOrder(ops, end) && CallsOk(cfg, ops, k, primaryCap, burstCap, keys)
    requires Spared(Run(cfg, ops).primary, cfg.primaryKey(k)) && Spared(Run(cfg, ops).burst, cfg.burstKey(k))
    ensures AdmittedIn(Log(cfg, ops), k, ShorterWindow(cfg), last) <= primaryCap + burstCap
  {
    hide AdmittedIn, Charges, Log, PrimaryOps, BurstOps, Forward, AllTake, HeldTo, KeysWithin, Spared, Run, Exec;
    StoresSeeOrdinaryRuns(cfg, ops);
    StoresOrderly(cfg, ops, end, k, primaryCap, burstCap, keys);
    AdmittedByOneOfThem(cfg, ops, k, last);
    AdmittedWithinCap(cfg.primary, PrimaryOps(cfg, ops), cfg.primaryKey(k), end, last, primaryCap);
    AdmittedWithinCap(cfg.burst, BurstOps(cfg, ops), cfg.burstKey(k), end, last, burstCap);
  }

  /** With no more storage keys than the stores may hold, no key can be evicted live. */
  lemma AdmittedWithinBothCapsFewKeys(
    cfg: Setup, ops: seq<Op>, end: int, k: Key, last: int, primaryCap: int, burstCap: int, keys: Keys)
    requires BothSliding(cfg) && primaryCap >= 0 && burstCap >= 0
    requires InClockOrder(ops, end) && CallsOk(cfg, ops, k, primaryCap, burstCap, keys)
    requires Roomy(cfg.primary, keys.primary) && Roomy(cfg.burst, keys.burst)
    ensures AdmittedIn(Log(cfg, ops), k, ShorterWindow(cfg), last) <= primaryCap + burstCap
  {
    hide AdmittedIn, Log, PrimaryOps, BurstOps, Forward, AllTake, HeldTo, KeysWithin, Run, Exec, Roomy, InClockOrder,
      CallsOk;
    StoresSeeOrdinaryRuns(cfg, ops);
    StoresOrderly(cfg, ops, end, k, primaryCap, burstCap, keys);
    RunHolds(cfg.primary, PrimaryOps(cfg, ops), keys.primary);
    RunHolds(cfg.burst, BurstOps(cfg, ops), keys.burst);
    AdmittedWithinBothCaps(cfg, ops, end, k, last, primaryCap, burstCap, keys);
  }

  /**
   An immediate decrement takes an admitted request back from the store that admitted it, and pops its
   frame; a primary that blocked it keeps its charge, as the steady rate should.
   */
  lemma DecrementReturnsToConsumer(cfg: Setup, s: Pair, k: Key, cap: Option<int>, n: Cost, now: int, newest: bool)
    requires BothSliding(cfg) && OkPair(cfg, s) && !Called(cfg, s, k, cap, n, now).1.isBlocked
    ensures var (pk, bk) := (cfg.primaryKey(k), cfg.burstKey(k));
            var spilled := IncrementKey(cfg.primary, s.primary, pk, CapOf(cfg.primaryCap, cap), n, now).1.isBlocked;
            var d := Returned(cfg, Called(cfg, s, k, cap, n, now).0, k, n, newest);
            && d.frames == s.frames
            && CountFor(cfg.burst, d.burst, bk, now) == CountFor(cfg.burst, s.burst, bk, now)
            && CountFor(cfg.primary, d.primary, pk, now) ==
               CountFor(cfg.primary, s.primary, pk, now) + if spilled then n else 0
  {
    hide Ok, IncrementKey, DecrementKey, CountFor;
    var (pk, bk) := (cfg.primaryKey(k), cfg.burstKey(k));
    CountAfter(cfg.primary, s.primary, pk, CapOf(cfg.primaryCap, cap), n, now, newest);
    CountAfter(cfg.burst, s.burst, bk, CapOf(cfg.burstCap, cap), n, now, newest);
    assert k !in s.frames ==> s.frames - {k} == s.frames;
  }

  ghost function CountFor(lim: Limits, m: Mem, k: Key, now: int): (n: int)
    requires Ok(lim, m) && lim.strategy.SlidingWindow?
  {
    OkEntry(lim, m, k);
    LiveCount(lim.strategy, Lookup(m, k), now)
  }

  lemma CountAfter(lim: Limits, m: Mem, k: Key, cap: Option<int>, n: Cost, now: int, newest: bool)
    requires Ok(lim, m) && lim.strategy.SlidingWindow?
    ensures var next := IncrementKey(lim, m, k, cap, n, now).0;
            && Ok(lim, next) && CountFor(lim, next, k, now) == CountFor(lim, m, k, now) + n
            && lim.strategy.Valid() && MatchesOption(lim.strategy, Lookup(next, k))
            && Ok(lim, DecrementKey(lim, next, k, n, newest))
            && CountFor(lim, DecrementKey(lim, next, k, n, newest), k, now) == CountFor(lim, m, k, now)
  {
    hide Ok, IncrementKey, DecrementKey, LiveCount, Increment, DecrementOption;
    IncrementKeyOk(lim, m, k, cap, n, now);
    IncrementedEntry(lim, m, k, cap, n, now);
    var next := IncrementKey(lim, m, k, cap, n, now).0;
    OkEntry(lim, next, k);
    DecrementKeyOk(lim, next, k, n, newest);
    DecrementedEntry(lim, next, k, n, newest);
    IncrementCharges(lim.strategy, Lookup(m, k), cap, n, now);
    SlidingUndoRestoresCount(lim.strategy, Lookup(m, k), cap, n, now, newest);
  }
}
