/**
 A shielded fixed-window store and a bare one, fed the same calls; the shield may be swept,
 emptied or overflow at any time, and both stores may purge whenever they like. When the two
 answer alike, exactly, and why they always do as long as neither evicts the key live.
 */
module ShieldRuns {
  import opened Entries
  import opened MemoryTable
  import opened ShieldSpec
  import opened FewKeys
  import opened FixedTable

  datatype Op =
    | Request(key: Key, override: Option<int>, cost: int, now: int)
    | Sweep(now: int)
    | UnshieldKey(key: Key)
    | ClearShield
    | GetBoth(key: Key, now: int)
    | ResetBoth(key: Key, now: int)
    | DeleteBoth(key: Key)
    | SetBoth(key: Key, hits: int, expiresAt: Option<int>, now: int)
    | ResetAllBoth
    | PurgeInner(now: int)
    | PurgeBare(now: int)

  datatype World = World(shield: Shield, bare: Mem, clock: int)

  /** The shield blocks at the cap, for as long as the window lasts. The stores may bound their keys. */
  ghost predicate Fits(lim: Limits, opts: Options) {
    && lim.strategy.Valid() && lim.strategy.FixedWindow?
    && opts.blockOnConsumed >= 1 && (opts.blockDurationMs.Some? ==> opts.blockDurationMs.value == 0)
  }

  function TimeOf(op: Op): (t: Option<int>) {
    match op
    case Request(_, _, _, now) => Some(now)
    case Sweep(now) => Some(now)
    case GetBoth(_, now) => Some(now)
    case ResetBoth(_, now) => Some(now)
    case SetBoth(_, _, _, now) => Some(now)
    case PurgeInner(now) => Some(now)
    case PurgeBare(now) => Some(now)
    case _ => None
  }

  ghost predicate Enabled(lim: Limits, opts: Options, w: World, op: Op)
    requires Fits(lim, opts)
  {
    && (TimeOf(op).Some? ==> w.clock <= TimeOf(op).value)
    && (op.Request? ==> CapFor(lim.strategy, op.override) == opts.blockOnConsumed)
  }

  ghost predicate WorldOk(lim: Limits, w: World) {
    Ok(lim, w.shield.inner) && Ok(lim, w.bare) && CacheOk(w.shield)
  }

  /** One operation of the inner store and of the bare one. */
  ghost function Both(lim: Limits, w: World, s: Shield, op: StoreOp): (r: World)
    requires WorldOk(lim, w) && CacheOk(s)
    ensures WorldOk(lim, r)
  {
    ApplyOk(lim, w.shield.inner, op);
    ApplyOk(lim, w.bare, op);
    World(s.(inner := Apply(lim, w.shield.inner, op).0), Apply(lim, w.bare, op).0, w.clock)
  }

  ghost function Next(lim: Limits, opts: Options, w: World, op: Op): (r: World)
    requires Fits(lim, opts) && WorldOk(lim, w)
    ensures WorldOk(lim, r)
  {
    match op
    case Request(k, override, cost, now) =>
      IncrementKeyOk(lim, w.bare, k, override, CostOf(cost), now);
      World(Incremented(lim, opts, w.shield, k, override, CostOf(cost), now).0,
            IncrementKey(lim, w.bare, k, override, CostOf(cost), now).0, w.clock)
    case Sweep(now) => w.(shield := Swept(w.shield, now))
    case UnshieldKey(k) => w.(shield := Unshield(w.shield, k))
    case ClearShield => w.(shield := w.shield.(order := [], cache := map[]))
    case GetBoth(k, now) =>
      OkEntry(lim, w.bare, k);
      GetKeyOk(lim, w.bare, k, now);
      World(Got(lim, w.shield, k, now).0, GetKey(lim, w.bare, k, now).0, w.clock)
    case ResetBoth(k, now) => Both(lim, w, Unshield(w.shield, k), Reset(k, now))
    case DeleteBoth(k) => Both(lim, w, Unshield(w.shield, k), Delete(k))
    case SetBoth(k, hits, expiresAt, now) => Both(lim, w, Unshield(w.shield, k), SetHits(k, hits, expiresAt, now))
    case ResetAllBoth => Both(lim, w, w.shield.(order := [], cache := map[]), ResetAll)
    case PurgeInner(now) => w.(shield := w.shield.(inner := Purge(lim, w.shield.inner, now)))
    case PurgeBare(now) => w.(bare := Purge(lim, w.bare, now))
  }

  ghost function Step(lim: Limits, opts: Options, w: World, op: Op): (r: World)
    requires Fits(lim, opts) && WorldOk(lim, w)
    ensures WorldOk(lim, r)
  {
    if !Enabled(lim, opts, w, op) then w
    else
      var t := TimeOf(op);
      Next(lim, opts, w, op).(clock := if t.Some? then t.value else w.clock)
  }

  ghost function Run(lim: Limits, opts: Options, start: int, ops: seq<Op>): (w: World)
    requires Fits(lim, opts)
    ensures WorldOk(lim, w)
  {
    if ops == [] then EmptyOk(lim, []); World(Shield([], map[], EMPTY), EMPTY, start)
    else Step(lim, opts, Run(lim, opts, start, ops[..|ops| - 1]), ops[|ops| - 1])
  }

  // ----- the simulation ------------------------------------------------------------------------

  /** Both windows are over, or they end together and hold the same count, or both are used up. */
  ghost predicate SameWindow(cap: int, e: Option<KeyState>, b: Option<KeyState>, now: int) {
    || (!LiveEntry(e, now) && !LiveEntry(b, now))
    || (LiveEntry(e, now) && LiveEntry(b, now) && e.value.resetTime == b.value.resetTime
        && (e.value.count == b.value.count || (e.value.count >= cap && b.value.count >= cap)))
  }

  /** A live cache entry stands for a used-up window that ends when the entry does. */
  ghost predicate CacheSound(cap: int, s: Shield, k: Key, now: int) {
    Live(s, k, now) ==>
      var (c, e) := (s.cache[k], Lookup(s.inner, k));
      && LiveEntry(e, now) && e.value.resetTime == c.expiresAt && e.value.count >= cap
      && c.result.resetTime == c.expiresAt && c.result.isBlocked && c.result.remaining == 0 && c.result.totalHits >= cap
  }

  ghost predicate Related(cap: int, w: World, k: Key) {
    SameWindow(cap, Lookup(w.shield.inner, k), Lookup(w.bare, k), w.clock) && CacheSound(cap, w.shield, k, w.clock)
  }

  /** Same verdict, same remaining quota, same reset time; the hit counts agree until the quota is used up. */
  ghost predicate SameAnswer(cap: int, a: Result, b: Result) {
    && a.isBlocked == b.isBlocked && a.remaining == b.remaining && a.resetTime == b.resetTime
    && (a.totalHits == b.totalHits || (a.totalHits >= cap && b.totalHits >= cap))
  }

  lemma EntryAnswers(cfg: Strategy, e: Option<KeyState>, b: Option<KeyState>, override: Option<int>, n: Cost, now: int)
    requires cfg.Valid() && cfg.FixedWindow? && MatchesOption(cfg, e) && MatchesOption(cfg, b)
    requires SameWindow(CapFor(cfg, override), e, b, now)
    ensures var cap := CapFor(cfg, override);
            var ((e2, er), (b2, br)) := (Increment(cfg, e, override, n, now), Increment(cfg, b, override, n, now));
            && SameAnswer(cap, er, br) && SameWindow(cap, Some(e2), Some(b2), now)
            && LiveEntry(Some(e2), now) && er.resetTime == e2.resetTime && er.totalHits == e2.count
            && (er.totalHits >= cap ==> er.remaining == 0)
            && (LiveEntry(e, now) && e.value.count >= cap ==>
                SameWindow(cap, e, Some(b2), now) && br == Result(br.totalHits, 0, e.value.resetTime, true)
                  && br.totalHits >= cap)
  {
    hide SlidingIncrement, BucketIncrement, Cut, CapFor;
  }

  /** Changes that leave the key alone, and a cache that at most loses it. */
  lemma QuietRelated(cap: int, w: World, s: Shield, bare: Mem, k: Key)
    requires Related(cap, w, k) && Quiet(w.shield.inner, s.inner, k, w.clock) && Quiet(w.bare, bare, k, w.clock)
    requires Spared(s.inner, k) && Spared(bare, k)
    requires k in s.cache ==> k in w.shield.cache && s.cache[k] == w.shield.cache[k]
    ensures Related(cap, World(s, bare, w.clock), k)
  {
  }

  /** At any state in which the two are related, a request gets the same answer from both and leaves them related. */
  lemma RequestAgrees(lim: Limits, opts: Options, w: World, k: Key, override: Option<int>, n: Cost, now: int)
    requires Fits(lim, opts) && WorldOk(lim, w) && CapFor(lim.strategy, override) == opts.blockOnConsumed
    requires Related(opts.blockOnConsumed, w.(clock := now), k)
    ensures var (s, res, _) := Incremented(lim, opts, w.shield, k, override, n, now);
            var (b, own) := IncrementKey(lim, w.bare, k, override, n, now);
            SameAnswer(opts.blockOnConsumed, res, own) && Related(opts.blockOnConsumed, World(s, b, now), k)
  {
    FixedIncrementKey(lim, w.shield.inner, k, override, n, now, k);
    FixedIncrementKey(lim, w.bare, k, override, n, now, k);
    EntryAnswers(lim.strategy, Lookup(w.shield.inner, k), Lookup(w.bare, k), override, n, now);
    hide Ok, IncrementKey, Increment, CapFor, CacheOk, Without;
  }

  lemma OtherKeyRelated(lim: Limits, opts: Options, w: World, x: Key, k: Key, override: Option<int>, n: Cost, now: int)
    requires Fits(lim, opts) && WorldOk(lim, w) && x != k && Related(opts.blockOnConsumed, w.(clock := now), x)
    requires Spared(Incremented(lim, opts, w.shield, k, override, n, now).0.inner, x)
    requires Spared(IncrementKey(lim, w.bare, k, override, n, now).0, x)
    ensures var s := Incremented(lim, opts, w.shield, k, override, n, now).0;
            var b := IncrementKey(lim, w.bare, k, override, n, now).0;
            Related(opts.blockOnConsumed, World(s, b, now), x)
  {
    hide Ok, IncrementKey, Related, CapFor, Without;
    FixedIncrementKey(lim, w.shield.inner, k, override, n, now, x);
    FixedIncrementKey(lim, w.bare, k, override, n, now, x);
    OtherKeyCached(lim, opts, w.shield, x, k, override, n, now);
    var s := Incremented(lim, opts, w.shield, k, override, n, now).0;
    QuietRelated(opts.blockOnConsumed, w.(clock := now), s, IncrementKey(lim, w.bare, k, override, n, now).0, x);
  }

  /** A request for `k` can only push `x` out of the cache. */
  lemma OtherKeyCached(lim: Limits, opts: Options, s: Shield, x: Key, k: Key, override: Option<int>, n: Cost, now: int)
    requires Ok(lim, s.inner) && CacheOk(s) && x != k
    ensures var r := Incremented(lim, opts, s, k, override, n, now).0;
            && (x in r.cache ==> x in s.cache && r.cache[x] == s.cache[x])
            && r.inner == (if Live(s, k, now) then s.inner else IncrementKey(lim, s.inner, k, override, n, now).0)
  {
    hide Ok, IncrementKey, Without;
  }

  /** Time passes: windows that end together end together. */
  lemma RelatedLater(cap: int, w: World, k: Key, now: int)
    requires Related(cap, w, k) && w.clock <= now
    ensures Related(cap, w.(clock := now), k)
  {
  }

  /** Neither store ever evicted the key live. */
  ghost predicate NeverEvicted(w: World, k: Key) {
    Spared(w.shield.inner, k) && Spared(w.bare, k)
  }

  lemma GotShape(lim: Limits, s: Shield, x: Key, now: int)
    requires Ok(lim, s.inner) && CacheOk(s)
    ensures lim.strategy.Valid() && (x in s.inner.entries ==> Matches(lim.strategy, s.inner.entries[x]))
    ensures Got(lim, s, x, now).0 == s.(inner := if Live(s, x, now) then s.inner else GetKey(lim, s.inner, x, now).0)
  {
    OkEntry(lim, s.inner, x);
    hide Ok, GetKey;
  }

  /** Both reads together. */
  lemma GetBothQuiet(lim: Limits, w: World, x: Key, now: int, k: Key)
    requires WorldOk(lim, w) && lim.strategy.FixedWindow?
    ensures lim.strategy.Valid() && (x in w.bare.entries ==> Matches(lim.strategy, w.bare.entries[x]))
    ensures var (s, b) := (Got(lim, w.shield, x, now).0, GetKey(lim, w.bare, x, now).0);
            && s.cache == w.shield.cache && s.inner.evicted == w.shield.inner.evicted && b.evicted == w.bare.evicted
            && Quiet(w.shield.inner, s.inner, k, now) && Quiet(w.bare, b, k, now)
  {
    GotShape(lim, w.shield, x, now);
    ReadQuiet(lim, w.shield.inner, x, now, k);
    ReadQuiet(lim, w.bare, x, now, k);
    QuietSelf(w, k, now);
    hide Ok, GetKey, Quiet;
  }

  lemma StepRelated(lim: Limits, opts: Options, w: World, op: Op, k: Key)
    requires Fits(lim, opts) && WorldOk(lim, w) && Enabled(lim, opts, w, op) && Related(opts.blockOnConsumed, w, k)
    requires NeverEvicted(Step(lim, opts, w, op), k)
    ensures Related(opts.blockOnConsumed, Step(lim, opts, w, op), k)
  {
    hide Ok, CacheOk, IncrementKey, Related, Purge, Without, CapFor, Spared, Quiet, Incremented, Apply, Got, GetKey;
    var (cap, now) := (opts.blockOnConsumed, if TimeOf(op).Some? then TimeOf(op).value else w.clock);
    RelatedLater(cap, w, k, now);
    var t := w.(clock := now);
    QuietSelf(w, k, now);
    match op
    case Request(x, override, cost, _) =>
      if x == k {
        RequestAgrees(lim, opts, w, k, override, CostOf(cost), now);
      } else {
        OtherKeyRelated(lim, opts, w, k, x, override, CostOf(cost), now);
      }
    case Sweep(_) => SweepRelated(cap, t, k, now);
    case PurgeInner(_) =>
      PurgeIsQuiet(lim, w.shield.inner, now, k);
      QuietRelated(cap, t, w.shield.(inner := Purge(lim, w.shield.inner, now)), w.bare, k);
    case PurgeBare(_) =>
      PurgeIsQuiet(lim, w.bare, now, k);
      QuietRelated(cap, t, w.shield, Purge(lim, w.bare, now), k);
    case GetBoth(x, _) =>
      GetBothQuiet(lim, w, x, now, k);
      QuietRelated(cap, t, Got(lim, w.shield, x, now).0, GetKey(lim, w.bare, x, now).0, k);
    case UnshieldKey(x) => QuietRelated(cap, t, Unshield(w.shield, x), w.bare, k);
    case ClearShield => QuietRelated(cap, t, w.shield.(order := [], cache := map[]), w.bare, k);
    case _ => BothRelated(lim, opts, w, op, k);
  }

  lemma QuietSelf(w: World, k: Key, now: int)
    ensures Quiet(w.shield.inner, w.shield.inner, k, now) && Quiet(w.bare, w.bare, k, now)
  {
  }

  lemma SweepRelated(cap: int, w: World, k: Key, now: int)
    requires CacheOk(w.shield) && Related(cap, w, k) && w.clock == now
    ensures Related(cap, w.(shield := Swept(w.shield, now)), k)
  {
    SweepDropsExactlyExpired(w.shield, now);
    hide Swept, CacheOk;
  }

  /** These drop the key from the cache and leave both stores with the same entry. */
  lemma BothRelated(lim: Limits, opts: Options, w: World, op: Op, k: Key)
    requires Fits(lim, opts) && WorldOk(lim, w) && Enabled(lim, opts, w, op) && Related(opts.blockOnConsumed, w, k)
    requires op.ResetBoth? || op.DeleteBoth? || op.SetBoth? || op.ResetAllBoth?
    requires NeverEvicted(Step(lim, opts, w, op), k)
    ensures Related(opts.blockOnConsumed, Step(lim, opts, w, op), k)
  {
    hide Ok, CacheOk, Apply, Without, CapFor, Related, Assigned, Quiet;
    var (cap, now) := (opts.blockOnConsumed, if TimeOf(op).Some? then TimeOf(op).value else w.clock);
    RelatedLater(cap, w, k, now);
    var own := match op
      case ResetBoth(x, t) => Reset(x, t)
      case DeleteBoth(x) => Delete(x)
      case SetBoth(x, hits, expiresAt, t) => SetHits(x, hits, expiresAt, t)
      case _ => ResetAll;
    ApplyQuiet(lim, w.shield.inner, own, k, now);
    ApplyQuiet(lim, w.bare, own, k, now);
    var r := Step(lim, opts, w, op);
    if op.ResetAllBoth? || op.key == k {
      FreshRelated(cap, r, k);
    } else {
      QuietRelated(cap, w.(clock := now), r.shield, r.bare, k);
    }
  }

  lemma FreshRelated(cap: int, w: World, k: Key)
    requires Lookup(w.shield.inner, k) == Lookup(w.bare, k) && k !in w.shield.cache
    ensures Related(cap, w, k)
  {
  }

  lemma StepEvicts(lim: Limits, opts: Options, w: World, op: Op, k: Key)
    requires Fits(lim, opts) && WorldOk(lim, w) && Enabled(lim, opts, w, op)
    ensures NeverEvicted(Step(lim, opts, w, op), k) ==> NeverEvicted(w, k)
  {
    hide Ok, CacheOk, IncrementKey, Purge, Without, CapFor, Spared, Quiet, Apply, Assigned, Increment, Got, GetKey;
    var r := Step(lim, opts, w, op);
    match op {
      case Request(x, override, cost, now) =>
        FixedIncrementKey(lim, w.shield.inner, x, override, CostOf(cost), now, k);
        FixedIncrementKey(lim, w.bare, x, override, CostOf(cost), now, k);
      case PurgeInner(now) => PurgeIsQuiet(lim, w.shield.inner, now, k);
      case PurgeBare(now) => PurgeIsQuiet(lim, w.bare, now, k);
      case GetBoth(x, now) => GetBothQuiet(lim, w, x, now, k);
      case ResetBoth(x, now) =>
        ApplyQuiet(lim, w.shield.inner, Reset(x, now), k, now);
        ApplyQuiet(lim, w.bare, Reset(x, now), k, now);
      case DeleteBoth(x) =>
        ApplyQuiet(lim, w.shield.inner, Delete(x), k, w.clock);
        ApplyQuiet(lim, w.bare, Delete(x), k, w.clock);
      case SetBoth(x, hits, expiresAt, now) =>
        ApplyQuiet(lim, w.shield.inner, SetHits(x, hits, expiresAt, now), k, now);
        ApplyQuiet(lim, w.bare, SetHits(x, hits, expiresAt, now), k, now);
      case ResetAllBoth =>
        ApplyQuiet(lim, w.shield.inner, ResetAll, k, w.clock);
        ApplyQuiet(lim, w.bare, ResetAll, k, w.clock);
      case _ =>
    }
    SparedBefore(w.shield.inner, r.shield.inner, k);
    SparedBefore(w.bare, r.bare, k);
  }

  lemma {:induction false} RunRelated(lim: Limits, opts: Options, start: int, ops: seq<Op>, k: Key)
    requires Fits(lim, opts) && NeverEvicted(Run(lim, opts, start, ops), k)
    ensures Related(opts.blockOnConsumed, Run(lim, opts, start, ops), k)
  {
    if ops != [] {
      hide Next, Related, Ok, Enabled, NeverEvicted;
      var w, op := Run(lim, opts, start, ops[..|ops| - 1]), ops[|ops| - 1];
      if Enabled(lim, opts, w, op) {
        StepEvicts(lim, opts, w, op, k);
        RunRelated(lim, opts, start, ops[..|ops| - 1], k);
        StepRelated(lim, opts, w, op, k);
      } else {
        RunRelated(lim, opts, start, ops[..|ops| - 1], k);
      }
    }
  }

  /**
   After every run in which neither store evicted the key live, a request at any later time gets the same answer from
   both.
   */
  lemma ShieldingChangesNoAnswer(lim: Limits, opts: Options, start: int, ops: seq<Op>, k: Key, override: Option<int>,
      n: Cost, now: int)
    requires Fits(lim, opts) && CapFor(lim.strategy, override) == opts.blockOnConsumed
    requires Run(lim, opts, start, ops).clock <= now
    requires NeverEvicted(Run(lim, opts, start, ops), k)
    ensures var w := Run(lim, opts, start, ops);
            SameAnswer(opts.blockOnConsumed, Incremented(lim, opts, w.shield, k, override, n, now).1,
              IncrementKey(lim, w.bare, k, override, n, now).1)
  {
    hide Ok, Run, Incremented, IncrementKey, Related, CapFor, SameAnswer, NeverEvicted;
    var w := Run(lim, opts, start, ops);
    RunRelated(lim, opts, start, ops, k);
    RelatedLater(opts.blockOnConsumed, w, k, now);
    RequestAgrees(lim, opts, w, k, override, n, now);
  }

  // ----- few keys ----------------------------------------------------------------------------

  function KeyIn(op: Op): (k: Option<Key>) {
    match op
    case Request(k, _, _, _) => Some(k)
    case GetBoth(k, _) => Some(k)
    case ResetBoth(k, _) => Some(k)
    case DeleteBoth(k) => Some(k)
    case SetBoth(k, _, _, _) => Some(k)
    case _ => None
  }

  ghost predicate BothHold(w: World, keys: set<Key>) {
    Holds(w.shield.inner, keys) && Holds(w.bare, keys)
  }

  lemma StepHolds(lim: Limits, opts: Options, w: World, op: Op, keys: set<Key>)
    requires Fits(lim, opts) && WorldOk(lim, w) && BothHold(w, keys) && Roomy(lim, keys)
    requires KeyIn(op).Some? ==> KeyIn(op).value in keys
    ensures BothHold(Next(lim, opts, w, op), keys)
  {
    hide Ok, CacheOk, IncrementKey, Purge, Without, Holds, Apply, Roomy, Got, GetKey;
    match op {
      case Request(k, override, cost, now) =>
        IncrementHolds(lim, w.shield.inner, k, override, CostOf(cost), keys, now);
        IncrementHolds(lim, w.bare, k, override, CostOf(cost), keys, now);
      case PurgeInner(now) => PurgeHolds(lim, w.shield.inner, keys, now);
      case PurgeBare(now) => PurgeHolds(lim, w.bare, keys, now);
      case GetBoth(k, now) =>
        GotShape(lim, w.shield, k, now);
        GetHolds(lim, w.shield.inner, k, keys, now);
        GetHolds(lim, w.bare, k, keys, now);
      case ResetBoth(k, now) => ApplyBothHold(lim, w, Reset(k, now), keys);
      case DeleteBoth(k) => ApplyBothHold(lim, w, Delete(k), keys);
      case SetBoth(k, hits, expiresAt, now) => ApplyBothHold(lim, w, SetHits(k, hits, expiresAt, now), keys);
      case ResetAllBoth => ApplyBothHold(lim, w, ResetAll, keys);
      case _ =>
    }
  }

  lemma ApplyBothHold(lim: Limits, w: World, op: StoreOp, keys: set<Key>)
    requires WorldOk(lim, w) && BothHold(w, keys) && Roomy(lim, keys) && (KeyOf(op).Some? ==> KeyOf(op).value in keys)
    ensures Holds(Apply(lim, w.shield.inner, op).0, keys) && Holds(Apply(lim, w.bare, op).0, keys)
  {
    hide Ok, CacheOk, Holds, Apply, Roomy;
    ApplyHolds(lim, w.shield.inner, op, keys);
    ApplyHolds(lim, w.bare, op, keys);
  }

  lemma {:induction false} RunHolds(lim: Limits, opts: Options, start: int, ops: seq<Op>, keys: set<Key>)
    requires Fits(lim, opts) && Roomy(lim, keys)
    requires forall i :: 0 <= i < |ops| && KeyIn(ops[i]).Some? ==> KeyIn(ops[i]).value in keys
    ensures BothHold(Run(lim, opts, start, ops), keys)
  {
    if ops != [] {
      hide Ok, Next, BothHold, Enabled;
      RunHolds(lim, opts, start, ops[..|ops| - 1], keys);
      StepHolds(lim, opts, Run(lim, opts, start, ops[..|ops| - 1]), ops[|ops| - 1], keys);
    }
  }

  /** With no more keys than the stores may hold, in particular on unbounded ones, nothing else is needed. */
  lemma ShieldingChangesNoAnswerFewKeys(
    lim: Limits, opts: Options, start: int, ops: seq<Op>, keys: set<Key>, k: Key, override: Option<int>, n: Cost,
      now: int)
    requires Fits(lim, opts) && CapFor(lim.strategy, override) == opts.blockOnConsumed
    requires Run(lim, opts, start, ops).clock <= now
    requires Roomy(lim, keys) && forall i :: 0 <= i < |ops| && KeyIn(ops[i]).Some? ==> KeyIn(ops[i]).value in keys
    ensures var w := Run(lim, opts, start, ops);
            SameAnswer(opts.blockOnConsumed, Incremented(lim, opts, w.shield, k, override, n, now).1,
              IncrementKey(lim, w.bare, k, override, n, now).1)
  {
    hide Ok, Run, Incremented, IncrementKey, CapFor, SameAnswer;
    RunHolds(lim, opts, start, ops, keys);
    ShieldingChangesNoAnswer(lim, opts, start, ops, k, override, n, now);
  }
}
