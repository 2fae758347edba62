/**
 The fixed-window guarantee over whole runs of a store: a window opens with the first hit after
 the last one ended and counts every hit until its end, so what is admitted in any interval of the
 window's length is below twice the cap; and how close it can come.
 */
module FixedRuns {
  import opened Entries
  import opened MemoryTable
  import opened FixedTable
  import opened FewKeys
  import opened SlidingRuns

  /** The window that a record of hits has opened last, and what it has counted. */
  datatype Window = Window(start: int, used: nat)

  /** Told from the record alone: a hit is counted in the open window, or opens one. */
  ghost function Latest(log: seq<Charge>, k: Key, w: int): (r: Option<Window>) {
    if log == [] then None
    else
      var (before, c) := (Latest(log[..|log| - 1], k, w), log[|log| - 1]);
      if c.key != k then before
      else if before.Some? && c.at < before.value.start + w
      then Some(Window(before.value.start, before.value.used + c.cost))
      else Some(Window(c.at, c.cost))
  }

  /** What the record's window holds at `now`. */
  ghost function UsedAt(log: seq<Charge>, k: Key, w: int, now: int): (n: nat) {
    var r := Latest(log, k, w);
    if r.Some? && now < r.value.start + w then r.value.used else 0
  }

  ghost predicate FixedLimits(lim: Limits) {
    lim.strategy.Valid() && lim.strategy.FixedWindow?
  }

  /** The store keeps the record's window while it is open, and nothing live otherwise. */
  ghost predicate Tracks(lim: Limits, m: Mem, log: seq<Charge>, k: Key, now: int)
    requires FixedLimits(lim)
  {
    var (r, w, e) := (Latest(log, k, lim.strategy.windowMs), lim.strategy.windowMs, Lookup(m, k));
    if r.Some? && now < r.value.start + w then e == Some(Fixed(r.value.used, r.value.start + w))
    else !LiveEntry(e, now)
  }

  lemma LatestSnoc(log: seq<Charge>, c: Charge, k: Key, w: int)
    ensures Latest(log + [c], k, w) ==
            var before := Latest(log, k, w);
            if c.key != k then before
            else if before.Some? && c.at < before.value.start + w
            then Some(Window(before.value.start, before.value.used + c.cost))
            else Some(Window(c.at, c.cost))
  {
    assert (log + [c])[..|log|] == log;
  }

  lemma TracksLater(lim: Limits, m: Mem, log: seq<Charge>, k: Key, now: int, later: int)
    requires FixedLimits(lim) && Tracks(lim, m, log, k, now) && now <= later
    ensures Tracks(lim, m, log, k, later)
  {
  }

  lemma TracksQuiet(lim: Limits, m: Mem, r: Mem, log: seq<Charge>, k: Key, now: int)
    requires FixedLimits(lim) && Tracks(lim, m, log, k, now) && Quiet(m, r, k, now) && Spared(r, k)
    ensures Tracks(lim, r, log, k, now)
  {
  }

  /** An increment of the key: decided on what the record's window holds, and counted there. */
  lemma OwnIncrementTracked(lim: Limits, m: Mem, log: seq<Charge>, k: Key, override: Option<int>, n: Cost, now: int)
    requires Ok(lim, m) && FixedLimits(lim) && Tracks(lim, m, log, k, now)
    ensures var (r, res) := IncrementKey(lim, m, k, override, n, now);
            var hits := UsedAt(log, k, lim.strategy.windowMs, now) + n;
            && Tracks(lim, r, log + [Charge(k, now, n, !res.isBlocked)], k, now)
            && res.totalHits == hits && (res.isBlocked <==> hits > CapFor(lim.strategy, override))
  {
    FixedIncrementKey(lim, m, k, override, n, now, k);
    var res := IncrementKey(lim, m, k, override, n, now).1;
    LatestSnoc(log, Charge(k, now, n, !res.isBlocked), k, lim.strategy.windowMs);
    hide Ok, IncrementKey, SlidingIncrement, BucketIncrement, CapFor;
  }

  // ----- whole runs ------------------------------------------------------------------------------

  /** Operations in clock order, none of which gives anything of `k` back or evicts it live. */
  ghost predicate Steady(lim: Limits, ops: seq<StoreOp>, k: Key, end: int) {
    FixedLimits(lim) && AllTake(ops, k) && Forward(ops, end) && Spared(Exec(lim, ops), k)
  }

  lemma SteadyPrefix(lim: Limits, ops: seq<StoreOp>, k: Key, end: int)
    requires ops != [] && Steady(lim, ops, k, end)
    ensures Steady(lim, ops[..|ops| - 1], k, LastClock(ops, end))
    ensures LastClock(ops, end) <= end && Takes(ops[|ops| - 1], k)
  {
    hide Ok, Apply;
    SparedEarlier(lim, Exec(lim, ops[..|ops| - 1]), ops[|ops| - 1], k);
  }

  /** What any other operation of such a run does to the key: nothing that counts. */
  lemma OtherStepQuiet(lim: Limits, m: Mem, op: StoreOp, k: Key, now: int)
    requires Ok(lim, m) && FixedLimits(lim) && Takes(op, k) && !(op.Inc? && op.key == k)
    requires TimeOf(op).Some? ==> TimeOf(op).value == now
    ensures Quiet(m, Apply(lim, m, op).0, k, now)
  {
    OkStrategy(lim, m);
    hide Ok, IncrementKey, Purge, Place, Decrement, Peek, GetKey, Quiet;
    match op
    case Inc(x, override, cost, _) => FixedIncrementKey(lim, m, x, override, CostOf(cost), now, k);
    case Get(x, _) => FixedTable.ReadQuiet(lim, m, x, now, k);
    case PurgeTick(_) => PurgeIsQuiet(lim, m, now, k);
    case Dec(x, cost, newest) => SameQuiet(m, DecrementKey(lim, m, x, CostOf(cost), newest), k, now);
    case _ => ApplyQuiet(lim, m, op, k, now);
  }

  lemma SameQuiet(m: Mem, r: Mem, k: Key, now: int)
    requires Lookup(r, k) == Lookup(m, k)
    ensures Quiet(m, r, k, now)
  {
  }

  lemma StepTracked(lim: Limits, m: Mem, log: seq<Charge>, op: StoreOp, k: Key, now: int)
    requires Ok(lim, m) && FixedLimits(lim) && Takes(op, k) && (TimeOf(op).Some? ==> TimeOf(op).value == now)
    requires Tracks(lim, m, log, k, now) && Spared(Apply(lim, m, op).0, k)
    ensures Tracks(lim, Apply(lim, m, op).0, log + Charged(lim, m, op), k, now)
  {
    hide Ok, Tracks, IncrementKey, Quiet, Spared, CapFor, UsedAt;
    if op.Inc? && op.key == k {
      OwnIncrementTracked(lim, m, log, k, op.override, CostOf(op.cost), now);
    } else {
      OtherStepQuiet(lim, m, op, k, now);
      TracksQuiet(lim, m, Apply(lim, m, op).0, log, k, now);
      OthersNotCounted(lim, m, log, op, k, now);
    }
  }

  lemma OthersNotCounted(lim: Limits, m: Mem, log: seq<Charge>, op: StoreOp, k: Key, now: int)
    requires Ok(lim, m) && FixedLimits(lim) && !(op.Inc? && op.key == k)
    ensures Tracks(lim, Apply(lim, m, op).0, log, k, now)
            ==> Tracks(lim, Apply(lim, m, op).0, log + Charged(lim, m, op), k, now)
  {
    hide Ok, Apply;
    assert log + [] == log;
    if op.Inc? {
      LatestSnoc(log, Charged(lim, m, op)[0], k, lim.strategy.windowMs);
    }
  }

  lemma {:induction false} RunTracked(lim: Limits, ops: seq<StoreOp>, k: Key, end: int)
    requires Steady(lim, ops, k, end)
    ensures Tracks(lim, Exec(lim, ops), Charges(lim, ops), k, end)
  {
    if ops != [] {
      hide Ok, Tracks, Charged, Apply, Forward, Spared, AllTake, Takes;
      var init, op := ops[..|ops| - 1], ops[|ops| - 1];
      var now := LastClock(ops, end);
      SteadyPrefix(lim, ops, k, end);
      RunTracked(lim, init, k, now);
      StepTracked(lim, Exec(lim, init), Charges(lim, init), op, k, now);
      TracksLater(lim, Exec(lim, ops), Charges(lim, ops), k, now, end);
    }
  }

  /**
   After every such run the store's count is what the record's window holds, and the next increment is decided on it.
   */
  lemma CountIsHistory(lim: Limits, ops: seq<StoreOp>, k: Key, now: int, override: Option<int>, n: Cost)
    requires Steady(lim, ops, k, now)
    ensures MatchesOption(lim.strategy, Lookup(Exec(lim, ops), k))
    ensures var used := UsedAt(Charges(lim, ops), k, lim.strategy.windowMs, now);
            && LiveCount(lim.strategy, Lookup(Exec(lim, ops), k), now) == used
            && var r := IncrementKey(lim, Exec(lim, ops), k, override, n, now).1;
               r.totalHits == used + n && (r.isBlocked <==> used + n > CapFor(lim.strategy, override))
  {
    OkEntry(lim, Exec(lim, ops), k);
    hide Ok, Exec, Charges, Forward, Spared, AllTake, IncrementKey, Latest, CapFor;
    RunTracked(lim, ops, k, now);
    OwnIncrementTracked(lim, Exec(lim, ops), Charges(lim, ops), k, override, n, now);
  }

  // ----- the quota -----------------------------------------------------------------------------------

  ghost function Adm(log: seq<Charge>, k: Key, lo: int, hi: int): (n: nat) {
    CountIn(Stamps(log, k, true), lo, hi)
  }

  ghost predicate NoneAfter(s: seq<int>, hi: int) {
    forall i :: 0 <= i < |s| ==> s[i] <= hi
  }

  lemma NoneAfterMore(s: seq<int>, at: int, n: nat, hi: int)
    requires NoneAfter(s, hi) && at <= hi
    ensures NoneAfter(s + Repeat(at, n), hi) && NoneAfter(s + [], hi)
  {
  }

  /**
   In the latest window the cap holds, and one less after the instant that opened it; one less also for what the
   window before it can still reach.
   */
  ghost predicate Bounded(log: seq<Charge>, k: Key, w: int, cap: int, now: int) {
    var r := Latest(log, k, w);
    && NoneAfter(Stamps(log, k, true), now)
    && (r.None? ==> Stamps(log, k, true) == [])
    && (r.Some? ==>
          var o := r.value.start;
          && o <= now && r.value.used >= 1
          && NoneAfter(Stamps(log, k, true), o + w - 1)
          && Adm(log, k, o - 1, now) <= Min(cap, r.value.used)
          && Adm(log, k, o, now) <= Min(cap, r.value.used) - 1
          && Adm(log, k, o - w, o - 1) <= cap - 1)
  }

  lemma {:induction false} CountSplit(s: seq<int>, lo: int, mid: int, hi: int)
    requires lo <= mid <= hi
    ensures CountIn(s, lo, hi) == CountIn(s, lo, mid) + CountIn(s, mid, hi)
  {
    if s != [] {
      CountSplit(s[1..], lo, mid, hi);
    }
  }

  lemma {:induction false} CountBeyond(s: seq<int>, lo: int, hi: int, now: int)
    requires forall i :: 0 <= i < |s| ==> s[i] <= now
    ensures now <= hi ==> CountIn(s, lo, hi) == CountIn(s, lo, now)
    ensures now <= lo ==> CountIn(s, lo, hi) == 0
  {
    if s != [] {
      CountBeyond(s[1..], lo, hi, now);
    }
  }

  lemma AdmSnoc(log: seq<Charge>, c: Charge, k: Key, lo: int, hi: int)
    ensures Adm(log + [c], k, lo, hi) ==
            Adm(log, k, lo, hi) + if c.key == k && c.allowed && lo < c.at <= hi then c.cost else 0
  {
    StampsSnoc(log, c, k, true);
    var adm := Stamps(log, k, true);
    assert adm + [] == adm;
    CountInConcat(adm, Repeat(c.at, c.cost), lo, hi);
    CountInRepeat(c.at, c.cost, lo, hi);
  }

  lemma BoundedLater(log: seq<Charge>, k: Key, w: int, cap: int, now: int, later: int)
    requires Bounded(log, k, w, cap, now) && now <= later
    ensures Bounded(log, k, w, cap, later)
  {
    var (s, r) := (Stamps(log, k, true), Latest(log, k, w));
    hide Stamps, Latest, CountIn;
    if r.Some? {
      CountBeyond(s, r.value.start - 1, later, now);
      CountBeyond(s, r.value.start, later, now);
    }
  }

  /** A hit in the open window. */
  lemma CountedBounded(log: seq<Charge>, c: Charge, k: Key, w: int, cap: int)
    requires w >= 1 && cap >= 1 && Bounded(log, k, w, cap, c.at) && c.key == k
    requires Latest(log, k, w).Some? && c.at < Latest(log, k, w).value.start + w
    requires c.allowed ==> Latest(log, k, w).value.used + c.cost <= cap
    ensures Bounded(log + [c], k, w, cap, c.at)
  {
    var o := Latest(log, k, w).value.start;
    LatestSnoc(log, c, k, w);
    StampsSnoc(log, c, k, true);
    AdmSnoc(log, c, k, o - 1, c.at);
    AdmSnoc(log, c, k, o, c.at);
    AdmSnoc(log, c, k, o - w, o - 1);
    CountSplit(Stamps(log, k, true), o, o, o);
    NoneAfterMore(Stamps(log, k, true), c.at, c.cost, c.at);
    NoneAfterMore(Stamps(log, k, true), c.at, c.cost, o + w - 1);
    hide Stamps, Latest, CountIn, Adm, NoneAfter;
  }

  /** A hit that opens a window. */
  lemma OpeningBounded(log: seq<Charge>, c: Charge, k: Key, w: int, cap: int)
    requires w >= 1 && cap >= 1 && Bounded(log, k, w, cap, c.at) && c.key == k
    requires Latest(log, k, w).Some? ==> Latest(log, k, w).value.start + w <= c.at
    requires c.allowed ==> c.cost <= cap
    ensures Bounded(log + [c], k, w, cap, c.at)
  {
    LatestSnoc(log, c, k, w);
    StampsSnoc(log, c, k, true);
    AdmSnoc(log, c, k, c.at - 1, c.at);
    AdmSnoc(log, c, k, c.at, c.at);
    AdmSnoc(log, c, k, c.at - w, c.at - 1);
    CountSplit(Stamps(log, k, true), c.at, c.at, c.at);
    BeforeOpening(log, k, w, cap, c.at);
    NoneAfterMore(Stamps(log, k, true), c.at, c.cost, c.at);
    NoneAfterMore(Stamps(log, k, true), c.at, c.cost, c.at + w - 1);
    hide Stamps, Latest, CountIn, Adm, NoneAfter;
  }

  lemma BeforeOpening(log: seq<Charge>, k: Key, w: int, cap: int, at: int)
    requires w >= 1 && cap >= 1 && Bounded(log, k, w, cap, at)
    requires Latest(log, k, w).Some? ==> Latest(log, k, w).value.start + w <= at
    ensures Adm(log, k, at - 1, at) == 0 && Adm(log, k, at - w, at - 1) <= cap - 1
    ensures NoneAfter(Stamps(log, k, true), at + w - 1)
  {
    var (s, r) := (Stamps(log, k, true), Latest(log, k, w));
    assert s == [] ==> CountIn(s, at - w, at - 1) == 0 && CountIn(s, at - 1, at) == 0;
    hide Stamps, Latest, CountIn;
    if r.Some? {
      CountBeyond(s, at - 1, at, r.value.start + w - 1);
      CountInShrinks(s, r.value.start, at, at - w, at - 1);
    }
  }

  lemma OtherBounded(log: seq<Charge>, c: Charge, k: Key, w: int, cap: int, now: int)
    requires Bounded(log, k, w, cap, now) && c.key != k
    ensures Bounded(log + [c], k, w, cap, now)
  {
    LatestSnoc(log, c, k, w);
    StampsSnoc(log, c, k, true);
    assert Stamps(log, k, true) + [] == Stamps(log, k, true);
    hide Stamps, Latest, CountIn;
  }

  /** Every increment of the key is held to the cap. */
  ghost predicate KeyHeldTo(lim: Limits, ops: seq<StoreOp>, k: Key, cap: int)
    requires FixedLimits(lim)
  {
    forall i :: 0 <= i < |ops| ==> OpHeldTo(lim, ops[i], k, cap)
  }

  ghost predicate OpHeldTo(lim: Limits, op: StoreOp, k: Key, cap: int)
    requires FixedLimits(lim)
  {
    op.Inc? && op.key == k ==> CapFor(lim.strategy, op.override) <= cap
  }

  lemma StepBounded(lim: Limits, m: Mem, log: seq<Charge>, op: StoreOp, k: Key, now: int, cap: int)
    requires Ok(lim, m) && FixedLimits(lim) && cap >= 1 && Tracks(lim, m, log, k, now)
    requires TimeOf(op).Some? ==> TimeOf(op).value == now
    requires OpHeldTo(lim, op, k, cap) && Bounded(log, k, lim.strategy.windowMs, cap, now)
    ensures Bounded(log + Charged(lim, m, op), k, lim.strategy.windowMs, cap, now)
  {
    hide Ok, Tracks, Bounded, IncrementKey, CapFor, Latest, Apply;
    if op.Inc? {
      var (c, w) := (Charged(lim, m, op)[0], lim.strategy.windowMs);
      if c.key != k {
        OtherBounded(log, c, k, w, cap, now);
      } else {
        ChargedOwn(lim, m, op);
        OwnIncrementTracked(lim, m, log, k, op.override, CostOf(op.cost), now);
        if Latest(log, k, w).Some? && now < Latest(log, k, w).value.start + w {
          CountedBounded(log, c, k, w, cap);
        } else {
          OpeningBounded(log, c, k, w, cap);
        }
      }
    } else {
      assert log + [] == log;
    }
  }

  lemma ChargedOwn(lim: Limits, m: Mem, op: StoreOp)
    requires Ok(lim, m) && op.Inc?
    ensures Charged(lim, m, op) == [Charge(op.key, op.now, CostOf(op.cost),
                                      !IncrementKey(lim, m, op.key, op.override, CostOf(op.cost), op.now).1.isBlocked)]
  {
    hide Ok, IncrementKey;
  }

  lemma NothingBounded(k: Key, w: int, cap: int, now: int)
    ensures Bounded([], k, w, cap, now)
  {
  }

  lemma {:induction false} RunBounded(lim: Limits, ops: seq<StoreOp>, k: Key, end: int, cap: int)
    requires Steady(lim, ops, k, end) && cap >= 1 && KeyHeldTo(lim, ops, k, cap)
    ensures Bounded(Charges(lim, ops), k, lim.strategy.windowMs, cap, end)
  {
    if ops == [] {
      NothingBounded(k, lim.strategy.windowMs, cap, end);
    } else {
      hide Ok, Tracks, Charged, Apply, Forward, Spared, AllTake, Takes, Bounded, OpHeldTo;
      var (init, op, now) := (ops[..|ops| - 1], ops[|ops| - 1], LastClock(ops, end));
      SteadyPrefix(lim, ops, k, end);
      RunBounded(lim, init, k, now, cap);
      RunTracked(lim, init, k, now);
      assert OpHeldTo(lim, op, k, cap);
      StepBounded(lim, Exec(lim, init), Charges(lim, init), op, k, now, cap);
      BoundedLater(Charges(lim, ops), k, lim.strategy.windowMs, cap, now, end);
    }
  }

  /** An interval that reaches the latest hit meets the latest window and, but for its first instant, the one before. */
  lemma TwoWindowsAtMost(log: seq<Charge>, k: Key, w: int, cap: int, now: int, last: int)
    requires w >= 1 && cap >= 1 && Bounded(log, k, w, cap, now) && now <= last
    ensures AdmittedIn(log, k, w, last) <= 2 * cap - 1
  {
    var (s, r) := (Stamps(log, k, true), Latest(log, k, w));
    assert s == [] ==> CountIn(s, last - w, last) == 0;
    hide Stamps, Latest, CountIn;
    if r.Some? {
      var o := r.value.start;
      CountInShrinks(s, o - w, now, last - w, last);
      CountSplit(s, o - w, o - 1, now);
    }
  }

  /**
   In every such run the cost admitted for a key in any interval of the window's length is below twice the cap.
   */
  lemma {:induction false} AdmittedBelowTwice(lim: Limits, ops: seq<StoreOp>, k: Key, end: int, last: int, cap: int)
    requires Steady(lim, ops, k, end) && cap >= 1 && KeyHeldTo(lim, ops, k, cap)
    ensures AdmittedIn(Charges(lim, ops), k, lim.strategy.windowMs, last) <= 2 * cap - 1
  {
    var w := lim.strategy.windowMs;
    if ops == [] {
      NothingAdmitted(k, w, last);
    } else {
      hide Ok, Tracks, Charged, Apply, Forward, Spared, AllTake, Takes, Bounded, OpHeldTo, AdmittedIn, Exec;
      var (init, op, now) := (ops[..|ops| - 1], ops[|ops| - 1], LastClock(ops, end));
      SteadyPrefix(lim, ops, k, end);
      AdmittedBelowTwice(lim, init, k, now, last, cap);
      if now <= last {
        RunBounded(lim, ops, k, end, cap);
        BoundedAtLast(lim, ops, k, end, cap);
        TwoWindowsAtMost(Charges(lim, ops), k, w, cap, now, last);
      } else {
        LateHitOutside(lim, ops, k, end, last);
      }
    }
  }

  /** The bound holds as soon as the last operation is done. */
  lemma BoundedAtLast(lim: Limits, ops: seq<StoreOp>, k: Key, end: int, cap: int)
    requires ops != [] && Steady(lim, ops, k, end) && cap >= 1 && KeyHeldTo(lim, ops, k, cap)
    ensures Bounded(Charges(lim, ops), k, lim.strategy.windowMs, cap, LastClock(ops, end))
  {
    hide Bounded, Spared, AllTake, Ok, Apply, Takes, Charges, OpHeldTo;
    RunBounded(lim, ops, k, LastClock(ops, end), cap);
  }

  lemma LateHitOutside(lim: Limits, ops: seq<StoreOp>, k: Key, end: int, last: int)
    requires ops != [] && FixedLimits(lim) && last < LastClock(ops, end)
    ensures AdmittedIn(Charges(lim, ops), k, lim.strategy.windowMs, last)
            == AdmittedIn(Charges(lim, ops[..|ops| - 1]), k, lim.strategy.windowMs, last)
  {
    hide Ok, Apply, AdmittedIn;
    var (init, op) := (ops[..|ops| - 1], ops[|ops| - 1]);
    if op.Inc? {
      AdmittedSnoc(Charges(lim, init), Charged(lim, Exec(lim, init), op)[0], k, lim.strategy.windowMs, last);
    } else {
      assert Charges(lim, init) + [] == Charges(lim, init);
    }
  }

  /** With no more keys than the store may hold, the key cannot be evicted live. */
  lemma AdmittedBelowTwiceFewKeys(lim: Limits, ops: seq<StoreOp>, keys: set<Key>, k: Key, end: int, last: int, cap: int)
    requires FixedLimits(lim) && AllTake(ops, k) && Forward(ops, end) && cap >= 1 && KeyHeldTo(lim, ops, k, cap)
    requires Roomy(lim, keys) && KeysWithin(ops, keys)
    ensures AdmittedIn(Charges(lim, ops), k, lim.strategy.windowMs, last) <= 2 * cap - 1
  {
    hide Ok, Charges, AdmittedIn, Forward, AllTake, KeyHeldTo, Exec;
    RunHolds(lim, ops, keys);
    AdmittedBelowTwice(lim, ops, k, end, last, cap);
  }

  /** One hit opens a window, the rest of the cap comes at its last instant, and a full cap one instant later. */
  function Burst(k: Key, cap: int, w: int): (ops: seq<StoreOp>) {
    [Inc(k, None, 1, 0), Inc(k, None, cap - 1, w - 1), Inc(k, None, cap, w)]
  }

  lemma FixedHit(cfg: Strategy, e: Option<KeyState>, n: Cost, now: int)
    requires cfg.Valid() && cfg.FixedWindow? && MatchesOption(cfg, e)
    ensures var open := e.Some? && now < e.value.resetTime;
            var (next, r) := Increment(cfg, e, None, n, now);
            && next == (if open then Fixed(e.value.count + n, e.value.resetTime) else Fixed(n, now + cfg.windowMs))
            && (r.isBlocked <==> next.count > cfg.maxRequests)
  {
    hide SlidingIncrement, BucketIncrement;
  }

  lemma OneHit(lim: Limits, ops: seq<StoreOp>, k: Key, n: Cost, now: int, e: Option<KeyState>)
    requires FixedLimits(lim) && Lookup(Exec(lim, ops), k) == e && MatchesOption(lim.strategy, e)
    ensures var (next, r) := Increment(lim.strategy, e, None, n, now);
            var more := ops + [Inc(k, None, n, now)];
            && Lookup(Exec(lim, more), k) == Some(next)
            && Charges(lim, more) == Charges(lim, ops) + [Charge(k, now, n, !r.isBlocked)]
  {
    var op := Inc(k, None, n, now);
    assert (ops + [op])[..|ops|] == ops;
    FixedIncrementKey(lim, Exec(lim, ops), k, None, n, now, k);
    ChargedOwn(lim, Exec(lim, ops), op);
    assert CostOf(n) == n;
    hide Ok, IncrementKey, Increment;
  }

  ghost function BurstLog(k: Key, cap: int, w: int): (log: seq<Charge>)
    requires cap >= 2
  {
    [] + [Charge(k, 0, 1, true)] + [Charge(k, w - 1, cap - 1, true)] + [Charge(k, w, cap, true)]
  }

  lemma FirstHits(lim: Limits, k: Key)
    requires FixedLimits(lim) && lim.strategy.maxRequests >= 2 && lim.strategy.windowMs >= 2
    ensures var (cap, w) := (lim.strategy.maxRequests, lim.strategy.windowMs);
            var ops := [] + [Inc(k, None, 1, 0)] + [Inc(k, None, cap - 1, w - 1)];
            && Lookup(Exec(lim, ops), k) == Some(Fixed(cap, w))
            && Charges(lim, ops) == [] + [Charge(k, 0, 1, true)] + [Charge(k, w - 1, cap - 1, true)]
  {
    var (cap, w) := (lim.strategy.maxRequests, lim.strategy.windowMs);
    assert Exec(lim, []) == EMPTY && Charges(lim, []) == [];
    hide Exec, Charges, Increment;
    FixedHit(lim.strategy, None, 1, 0);
    FixedHit(lim.strategy, Some(Fixed(1, w)), cap - 1, w - 1);
    OneHit(lim, [], k, 1, 0, None);
    OneHit(lim, [] + [Inc(k, None, 1, 0)], k, cap - 1, w - 1, Some(Fixed(1, w)));
  }

  lemma BurstRun(lim: Limits, k: Key)
    requires FixedLimits(lim) && lim.strategy.maxRequests >= 2 && lim.strategy.windowMs >= 2
    ensures var (cap, w) := (lim.strategy.maxRequests, lim.strategy.windowMs);
            Charges(lim, Burst(k, cap, w)) == BurstLog(k, cap, w)
  {
    var (cap, w) := (lim.strategy.maxRequests, lim.strategy.windowMs);
    var ops := [] + [Inc(k, None, 1, 0)] + [Inc(k, None, cap - 1, w - 1)];
    FirstHits(lim, k);
    hide Exec, Charges, Increment;
    FixedHit(lim.strategy, Some(Fixed(cap, w)), cap, w);
    OneHit(lim, ops, k, cap, w, Some(Fixed(cap, w)));
    assert ops + [Inc(k, None, cap, w)] == Burst(k, cap, w);
  }

  /** Every configuration of at least two hits and two instants has a run that comes that close to twice the cap. */
  lemma BurstReachesBound(lim: Limits, k: Key)
    requires FixedLimits(lim) && lim.strategy.maxRequests >= 2 && lim.strategy.windowMs >= 2
    ensures var (cap, w) := (lim.strategy.maxRequests, lim.strategy.windowMs);
            && Steady(lim, Burst(k, cap, w), k, w) && KeyHeldTo(lim, Burst(k, cap, w), k, cap)
            && AdmittedIn(Charges(lim, Burst(k, cap, w)), k, w, w) == 2 * cap - 1
  {
    hide Steady, KeyHeldTo, Charges, AdmittedIn, Burst, BurstLog;
    var (cap, w) := (lim.strategy.maxRequests, lim.strategy.windowMs);
    BurstRun(lim, k);
    BurstAdds(k, cap, w);
    BurstSteady(lim, k, cap, w);
  }

  lemma BurstAdds(k: Key, cap: int, w: int)
    requires cap >= 2 && w >= 2
    ensures AdmittedIn(BurstLog(k, cap, w), k, w, w) == 2 * cap - 1
  {
    var (a, b, c) := (Charge(k, 0, 1, true), Charge(k, w - 1, cap - 1, true), Charge(k, w, cap, true));
    NothingAdmitted(k, w, w);
    AdmittedSnoc([], a, k, w, w);
    AdmittedSnoc([] + [a], b, k, w, w);
    AdmittedSnoc([] + [a] + [b], c, k, w, w);
    hide AdmittedIn;
  }

  lemma BurstForward(k: Key, cap: int, w: int)
    requires cap >= 2 && w >= 2
    ensures Forward(Burst(k, cap, w), w)
  {
    var ops := Burst(k, cap, w);
    assert ops[..2] == [ops[0], ops[1]] && ops[..2][..1] == [ops[0]] && ops[..2][..1][..0] == [];
    assert Forward([], 0) && Forward([ops[0]], w - 1) && Forward([ops[0], ops[1]], w);
  }

  lemma BurstSteady(lim: Limits, k: Key, cap: int, w: int)
    requires FixedLimits(lim) && cap == lim.strategy.maxRequests && cap >= 2 && w >= 2
    ensures Steady(lim, Burst(k, cap, w), k, w) && KeyHeldTo(lim, Burst(k, cap, w), k, cap)
  {
    BurstForward(k, cap, w);
    assert |{k}| == 1;
    RunHolds(lim, Burst(k, cap, w), {k});
    hide Ok, Exec, Forward;
  }
}
