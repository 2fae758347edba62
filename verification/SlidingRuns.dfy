/**
 The sliding-window guarantee over whole runs of a store: what is kept is exactly
 the history cut to the window, and what is admitted in any window is within the cap.
 */
module SlidingRuns {
  import opened Entries
  import opened EntryLaws
  import opened MemoryTable
  import opened FewKeys

  /** One increment as the caller saw it. */
  datatype Charge = Charge(key: Key, at: int, cost: Cost, allowed: bool)

  /** What one operation adds to the record of increments. */
  ghost function Charged(lim: Limits, m: Mem, op: StoreOp): (log: seq<Charge>)
    requires Ok(lim, m)
  {
    if op.Inc? then [Charge(op.key, op.now, CostOf(op.cost), !Apply(lim, m, op).1.value.isBlocked)] else []
  }

  /** Every increment of a run, with its outcome. */
  ghost function Charges(lim: Limits, ops: seq<StoreOp>): (log: seq<Charge>)
    requires lim.strategy.Valid()
  {
    if ops == [] then []
    else Charges(lim, ops[..|ops| - 1]) + Charged(lim, Exec(lim, ops[..|ops| - 1]), ops[|ops| - 1])
  }

  /** The hits charged to a key, one stamp per unit; all of them, or only the admitted ones. */
  ghost function Stamps(log: seq<Charge>, k: Key, admittedOnly: bool): (s: seq<int>) {
    if log == [] then []
    else
      var c := log[|log| - 1];
      Stamps(log[..|log| - 1], k, admittedOnly) +
      if c.key == k && (c.allowed || !admittedOnly) then Repeat(c.at, c.cost) else []
  }

  lemma StampsSnoc(log: seq<Charge>, c: Charge, k: Key, admittedOnly: bool)
    ensures Stamps(log + [c], k, admittedOnly) ==
            Stamps(log, k, admittedOnly)
            + if c.key == k && (c.allowed || !admittedOnly) then Repeat(c.at, c.cost) else []
  {
    assert (log + [c])[..|log|] == log;
  }

  ghost predicate NoWall(s: Option<KeyState>) {
    s.Some? && s.value.Sliding? ==> s.value.wall.None?
  }

  // ----- what one step does to a key it does not increment -------------------------

  lemma PurgeOneQuiet(lim: Limits, m: Mem, x: Key, pass: Pass, now: int, k: Key, t: int)
    requires Ok(lim, m) && lim.strategy.SlidingWindow? && now <= t && NoWall(Lookup(m, k))
    ensures var r := PurgeOne(lim, m, x, pass, now);
            && m.evicted <= r.evicted
            && NoWall(Lookup(r, k)) && MatchesOption(lim.strategy, Lookup(r, k))
            && LiveStamps(lim.strategy, Lookup(r, k), t) == LiveStamps(lim.strategy, Lookup(m, k), t)
  {
    if x == k && k in m.entries {
      CutCut(m.entries[k].stamps, now - lim.strategy.windowMs, t - lim.strategy.windowMs);
    }
  }

  lemma {:induction false} PurgeAllQuiet(lim: Limits, m: Mem, keys: seq<Key>, pass: Pass, now: int, k: Key, t: int)
    requires Ok(lim, m) && lim.strategy.SlidingWindow? && now <= t && NoWall(Lookup(m, k))
    ensures var r := PurgeAll(lim, m, keys, pass, now);
            && m.evicted <= r.evicted
            && NoWall(Lookup(r, k))
            && LiveStamps(lim.strategy, Lookup(r, k), t) == LiveStamps(lim.strategy, Lookup(m, k), t)
  {
    if keys != [] {
      PurgeAllQuiet(lim, m, keys[..|keys| - 1], pass, now, k, t);
      PurgeOneQuiet(lim, PurgeAll(lim, m, keys[..|keys| - 1], pass, now), keys[|keys| - 1], pass, now, k, t);
    }
  }

  lemma ExpiredHasNoStamps(cfg: Strategy, s: KeyState, now: int, t: int)
    requires cfg.SlidingWindow? && Matches(cfg, s) && EntryExpired(cfg, s, now) && NoWall(Some(s)) && now <= t
    ensures LiveStamps(cfg, Some(s), t) == []
  {
    CutCut(s.stamps, now - cfg.windowMs, t - cfg.windowMs);
  }

  /** What an increment of `x` does to any other key: nothing, or it drops the key as expired or as the LRU victim. */
  lemma OtherKeyAfterClaim(lim: Limits, m: Mem, x: Key, now: int, k: Key)
    requires Ok(lim, m) && x != k
    ensures var r := Claim(lim, m, x, now);
            || Lookup(r, k) == Lookup(m, k)
            || (k in m.entries && k !in r.entries
                && (EntryExpired(lim.strategy, m.entries[k], now) || !Spared(r, k)))
  {
    hide MakeRoom;
    EraseOk(lim, m, x);
    var cur := DropWallExpired(m, x, now);
    MakeRoomKeeps(lim, cur, now);
    if k in m.entries {
      MakeRoomLoses(lim, cur, now, k);
    }
  }

  /** Another key's increment: `k` keeps its live stamps, unless it is the LRU victim. */
  lemma OtherIncrementQuiet(lim: Limits, m: Mem, x: Key, override: Option<int>, n: Cost, now: int, k: Key, t: int)
    requires Ok(lim, m) && lim.strategy.SlidingWindow? && NoWall(Lookup(m, k)) && x != k && now <= t
    ensures var r := IncrementKey(lim, m, x, override, n, now).0;
            !Spared(r, k) || SameLive(lim, m, r, k, t)
  {
    hide Claim, MakeRoom;
    OtherKeyAfterClaim(lim, m, x, now, k);
    if k in m.entries && EntryExpired(lim.strategy, m.entries[k], now) {
      ExpiredHasNoStamps(lim.strategy, m.entries[k], now, t);
    }
  }

  ghost predicate SameLive(lim: Limits, m: Mem, r: Mem, k: Key, t: int)
    requires lim.strategy.SlidingWindow? && MatchesOption(lim.strategy, Lookup(m, k))
  {
    && NoWall(Lookup(r, k)) && MatchesOption(lim.strategy, Lookup(r, k))
    && LiveStamps(lim.strategy, Lookup(r, k), t) == LiveStamps(lim.strategy, Lookup(m, k), t)
  }

  lemma PurgeQuiet(lim: Limits, m: Mem, now: int, k: Key, t: int)
    requires Ok(lim, m) && lim.strategy.SlidingWindow? && NoWall(Lookup(m, k)) && now <= t
    ensures m.evicted <= Purge(lim, m, now).evicted && SameLive(lim, m, Purge(lim, m, now), k, t)
  {
    PurgeAllQuiet(lim, m, m.order, WallPass, now, k, t);
    var walls := PurgeAll(lim, m, m.order, WallPass, now);
    PurgeAllQuiet(lim, walls, walls.order, TrimPass, now, k, t);
  }

  lemma ReadQuiet(lim: Limits, m: Mem, x: Key, now: int, k: Key, t: int)
    requires Ok(lim, m) && lim.strategy.SlidingWindow? && NoWall(Lookup(m, k))
    ensures m.evicted <= GetKey(lim, m, x, now).0.evicted && SameLive(lim, m, GetKey(lim, m, x, now).0, k, t)
  {
  }

  // ----- one step of the record ---------------------------------------------------------

  /** What a store keeps of `k` agrees, at `now` and from then on, with the record of its hits. */
  ghost predicate Agrees(lim: Limits, m: Mem, hist: seq<int>, k: Key, now: int) {
    && lim.strategy.Valid() && lim.strategy.SlidingWindow?
    && NoWall(Lookup(m, k)) && MatchesOption(lim.strategy, Lookup(m, k))
    && LiveStamps(lim.strategy, Lookup(m, k), now) == Cut(hist, now - lim.strategy.windowMs)
    && forall i :: 0 <= i < |hist| ==> hist[i] <= now
  }

  lemma AgreesLater(lim: Limits, m: Mem, hist: seq<int>, k: Key, now: int, t: int)
    requires Agrees(lim, m, hist, k, now) && now <= t
    ensures Agrees(lim, m, hist, k, t)
  {
    var w := lim.strategy.windowMs;
    CutCut(hist, now - w, t - w);
    CutCut(if k in m.entries then m.entries[k].stamps else [], now - w, t - w);
  }

  lemma AgreesNoWall(lim: Limits, m: Mem, hist: seq<int>, k: Key, now: int)
    requires Agrees(lim, m, hist, k, now)
    ensures lim.strategy.SlidingWindow? && NoWall(Lookup(m, k)) && MatchesOption(lim.strategy, Lookup(m, k))
  {
  }

  lemma AgreesAcross(lim: Limits, m: Mem, r: Mem, hist: seq<int>, k: Key, now: int)
    requires Agrees(lim, m, hist, k, now)
    ensures SameLive(lim, m, r, k, now) ==> Agrees(lim, r, hist, k, now)
  {
  }

  lemma CutOfExtended(hist: seq<int>, n: nat, now: int, lo: int)
    requires lo < now
    ensures Cut(hist + Repeat(now, n), lo) == Cut(hist, lo) + Repeat(now, n)
    ensures Cut(Cut(hist, lo) + Repeat(now, n), lo) == Cut(hist, lo) + Repeat(now, n)
  {
    CutConcat(hist, Repeat(now, n), lo);
    CutKeepsLater(Repeat(now, n), lo);
    CutKeepsLater(Cut(hist, lo) + Repeat(now, n), lo);
  }

  /**
   An increment of `k` itself: the record and the store take the same stamps, and the decision is about their live
   number.
   */
  lemma IncrementAgrees(lim: Limits, m: Mem, hist: seq<int>, k: Key, override: Option<int>, n: Cost, now: int)
    requires Ok(lim, m) && Agrees(lim, m, hist, k, now)
    ensures var (r, res) := IncrementKey(lim, m, k, override, n, now);
            && Agrees(lim, r, hist + Repeat(now, n), k, now)
            && (res.isBlocked <==> |Cut(hist, now - lim.strategy.windowMs)| + n > CapFor(lim.strategy, override))
  {
    hide Ok, Claim, MakeRoom, Increment, Cut;
    SlidingIncrementShape(lim.strategy, Lookup(m, k), override, n, now);
    CutOfExtended(hist, n, now, now - lim.strategy.windowMs);
  }

  /** Another key's `set` is like its increment. */
  lemma OtherWriteQuiet(lim: Limits, m: Mem, x: Key, s: KeyState, now: int, k: Key)
    requires Ok(lim, m) && lim.strategy.SlidingWindow? && NoWall(Lookup(m, k)) && x != k
    ensures var r := Place(lim, m, x, s, now); !Spared(r, k) || SameLive(lim, m, r, k, now)
  {
    hide MakeRoom, Place;
    OtherKeyAfterPlace(lim, m, x, s, now, k);
    if k in m.entries && EntryExpired(lim.strategy, m.entries[k], now) {
      ExpiredHasNoStamps(lim.strategy, m.entries[k], now, now);
    }
  }

  lemma OtherUndoQuiet(lim: Limits, m: Mem, op: StoreOp, k: Key, now: int)
    requires Ok(lim, m) && lim.strategy.SlidingWindow? && NoWall(Lookup(m, k))
    requires (op.Dec? || op.Reset? || op.Delete?) && op.key != k
    ensures SameLive(lim, m, Apply(lim, m, op).0, k, now)
  {
    OkStrategy(lim, m);
    hide Ok, Decrement, Cut;
  }

  /** Nothing of `k` is given back or overwritten by this operation. */
  predicate Takes(op: StoreOp, k: Key) {
    op.Inc? || op.Get? || op.PurgeTick? || (!op.ResetAll? && op.key != k)
  }

  lemma IncrementStepAgrees(lim: Limits, m: Mem, log: seq<Charge>, op: StoreOp, k: Key)
    requires Ok(lim, m) && op.Inc? && Agrees(lim, m, Stamps(log, k, false), k, op.now)
    requires Spared(Apply(lim, m, op).0, k)
    ensures Agrees(lim, Apply(lim, m, op).0, Stamps(log + Charged(lim, m, op), k, false), k, op.now)
  {
    AgreesNoWall(lim, m, Stamps(log, k, false), k, op.now);
    StampsSnoc(log, Charged(lim, m, op)[0], k, false);
    hide Ok, Agrees, IncrementKey, Stamps, SameLive, NoWall, MatchesOption;
    var hist := Stamps(log, k, false);
    assert hist + [] == hist;
    if op.key == k {
      IncrementAgrees(lim, m, hist, k, op.override, CostOf(op.cost), op.now);
    } else {
      OtherIncrementQuiet(lim, m, op.key, op.override, CostOf(op.cost), op.now, k, op.now);
      AgreesAcross(lim, m, Apply(lim, m, op).0, hist, k, op.now);
    }
  }

  lemma StepAgrees(lim: Limits, m: Mem, log: seq<Charge>, op: StoreOp, k: Key, now: int)
    requires Ok(lim, m) && Takes(op, k) && (TimeOf(op).Some? ==> TimeOf(op).value == now)
    requires Agrees(lim, m, Stamps(log, k, false), k, now) && Spared(Apply(lim, m, op).0, k)
    ensures Agrees(lim, Apply(lim, m, op).0, Stamps(log + Charged(lim, m, op), k, false), k, now)
  {
    hide Ok, Agrees, IncrementKey, GetKey, Purge, Place, Decrement, Stamps, SameLive, NoWall, MatchesOption;
    var hist := Stamps(log, k, false);
    assert log + [] == log;
    AgreesNoWall(lim, m, hist, k, now);
    if op.Inc? {
      IncrementStepAgrees(lim, m, log, op, k);
    } else {
      match op {
        case Get(x, _) => ReadQuiet(lim, m, x, now, k, now);
        case PurgeTick(_) => PurgeQuiet(lim, m, now, k, now);
        case SetHits(x, hits, expiresAt, _) =>
          OtherWriteQuiet(lim, m, x, Assigned(lim, hits, expiresAt, now).0, now, k);
        case _ => OtherUndoQuiet(lim, m, op, k, now);
      }
      AgreesAcross(lim, m, Apply(lim, m, op).0, hist, k, now);
    }
  }

  // ----- whole runs ------------------------------------------------------------------

  /** No operation gives anything of `k` back. */
  ghost predicate AllTake(ops: seq<StoreOp>, k: Key) {
    forall i :: 0 <= i < |ops| ==> Takes(ops[i], k)
  }

  /** Operations in clock order up to `end`, none of which gives anything of `k` back or evicts it live. */
  ghost predicate Undisturbed(lim: Limits, ops: seq<StoreOp>, k: Key, end: int) {
    && lim.strategy.Valid() && lim.strategy.SlidingWindow?
    && AllTake(ops, k) && Forward(ops, end) && Spared(Exec(lim, ops), k)
  }

  /** The last operation's clock, or `end` if it reads none. */
  ghost function LastClock(ops: seq<StoreOp>, end: int): (t: int)
    requires ops != []
  {
    var t := TimeOf(ops[|ops| - 1]);
    if t.Some? then t.value else end
  }

  lemma UndisturbedPrefix(lim: Limits, ops: seq<StoreOp>, k: Key, end: int)
    requires ops != [] && Undisturbed(lim, ops, k, end)
    ensures Undisturbed(lim, ops[..|ops| - 1], k, LastClock(ops, end))
    ensures LastClock(ops, end) <= end && Takes(ops[|ops| - 1], k)
  {
    hide Ok, Apply;
    SparedEarlier(lim, Exec(lim, ops[..|ops| - 1]), ops[|ops| - 1], k);
  }

  lemma {:induction false} RunAgrees(lim: Limits, ops: seq<StoreOp>, k: Key, t: int)
    requires Undisturbed(lim, ops, k, t)
    ensures Agrees(lim, Exec(lim, ops), Stamps(Charges(lim, ops), k, false), k, t)
  {
    if ops != [] {
      hide Ok, Agrees, Charged, Apply, Forward, Spared, AllTake, Takes, Stamps;
      var init, op := ops[..|ops| - 1], ops[|ops| - 1];
      var now := LastClock(ops, t);
      UndisturbedPrefix(lim, ops, k, t);
      RunAgrees(lim, init, k, now);
      StepAgrees(lim, Exec(lim, init), Charges(lim, init), op, k, now);
      AgreesLater(lim, Exec(lim, ops), Stamps(Charges(lim, ops), k, false), k, now, t);
    }
  }

  /** The kept live stamps are exactly the full hit history cut to the window. */
  lemma KeptIsHistoryCut(lim: Limits, ops: seq<StoreOp>, k: Key, t: int)
    requires Undisturbed(lim, ops, k, t)
    ensures MatchesOption(lim.strategy, Lookup(Exec(lim, ops), k))
    ensures LiveStamps(lim.strategy, Lookup(Exec(lim, ops), k), t)
            == Cut(Stamps(Charges(lim, ops), k, false), t - lim.strategy.windowMs)
  {
    hide Exec, Charges, Stamps, Cut, Forward, Spared, AllTake, Ok;
    RunAgrees(lim, ops, k, t);
  }

  lemma {:induction false} AdmittedAreHits(log: seq<Charge>, k: Key, lo: int, hi: int)
    ensures CountIn(Stamps(log, k, true), lo, hi) <= CountIn(Stamps(log, k, false), lo, hi)
  {
    if log != [] {
      var init, c := log[..|log| - 1], log[|log| - 1];
      AdmittedAreHits(init, k, lo, hi);
      CountInConcat(Stamps(init, k, true), Repeat(c.at, c.cost), lo, hi);
      CountInConcat(Stamps(init, k, false), Repeat(c.at, c.cost), lo, hi);
      assert Stamps(init, k, true) + [] == Stamps(init, k, true);
      assert Stamps(init, k, false) + [] == Stamps(init, k, false);
    }
  }

  /** Admitted cost in (last - windowMs, last], as the record has it. */
  ghost function AdmittedIn(log: seq<Charge>, k: Key, windowMs: int, last: int): (n: nat) {
    CountIn(Stamps(log, k, true), last - windowMs, last)
  }

  /** At an admitted increment, everything charged in any window around it fits under the cap. */
  lemma AdmittedFits(lim: Limits, m: Mem, log: seq<Charge>, k: Key, override: Option<int>, n: Cost, now: int, last: int)
    requires Ok(lim, m) && Agrees(lim, m, Stamps(log, k, false), k, now)
    requires !IncrementKey(lim, m, k, override, n, now).1.isBlocked
    requires now <= last < now + lim.strategy.windowMs
    ensures AdmittedIn(log, k, lim.strategy.windowMs, last) + n <= CapFor(lim.strategy, override)
  {
    hide Ok, IncrementKey, Cut;
    var w, hist := lim.strategy.windowMs, Stamps(log, k, false);
    IncrementAgrees(lim, m, hist, k, override, n, now);
    AdmittedAreHits(log, k, last - w, last);
    CountInShrinks(hist, now - w, now, last - w, last);
    CountInIsCut(hist, now - w, now);
  }

  lemma AdmittedSnoc(log: seq<Charge>, c: Charge, k: Key, w: int, last: int)
    ensures AdmittedIn(log + [c], k, w, last) ==
            AdmittedIn(log, k, w, last) + if c.key == k && c.allowed && last - w < c.at <= last then c.cost else 0
  {
    StampsSnoc(log, c, k, true);
    var adm := Stamps(log, k, true);
    assert adm + [] == adm;
    CountInConcat(adm, Repeat(c.at, c.cost), last - w, last);
    CountInRepeat(c.at, c.cost, last - w, last);
  }

  lemma AdmittedStep(lim: Limits, m: Mem, log: seq<Charge>, op: StoreOp, k: Key, now: int, last: int, cap: int)
    requires Ok(lim, m) && Agrees(lim, m, Stamps(log, k, false), k, now)
    requires TimeOf(op).Some? ==> TimeOf(op).value == now
    requires op.Inc? && op.key == k ==> lim.strategy.Valid() && CapFor(lim.strategy, op.override) <= cap
    requires AdmittedIn(log, k, lim.strategy.windowMs, last) <= cap
    ensures AdmittedIn(log + Charged(lim, m, op), k, lim.strategy.windowMs, last) <= cap
  {
    AgreesNoWall(lim, m, Stamps(log, k, false), k, now);
    hide Ok, Agrees, IncrementKey, GetKey, Purge, AdmittedIn, Stamps, Place, Decrement;
    if op.Inc? {
      var c := Charged(lim, m, op)[0];
      AdmittedSnoc(log, c, k, lim.strategy.windowMs, last);
      if c.key == k && c.allowed && last - lim.strategy.windowMs < c.at <= last {
        AdmittedFits(lim, m, log, k, op.override, CostOf(op.cost), op.now, last);
      }
    } else {
      assert log + [] == log;
    }
  }

  /** Every increment of the key is held to the cap. */
  ghost predicate HeldTo(lim: Limits, ops: seq<StoreOp>, k: Key, cap: int) {
    forall i :: 0 <= i < |ops| ==> OneHeldTo(lim, ops[i], k, cap)
  }

  ghost predicate OneHeldTo(lim: Limits, op: StoreOp, k: Key, cap: int) {
    lim.strategy.Valid() && lim.strategy.SlidingWindow? && op.Inc? && op.key == k ==>
      CapFor(lim.strategy, op.override) <= cap
  }

  /**
   Whatever the costs, and whatever happens to other keys: the cost admitted for a key in any window
   (last - windowMs, last] is within the cap.
   */
  lemma {:induction false} AdmittedWithinCap(lim: Limits, ops: seq<StoreOp>, k: Key, end: int, last: int, cap: int)
    requires Undisturbed(lim, ops, k, end) && cap >= 0 && HeldTo(lim, ops, k, cap)
    ensures AdmittedIn(Charges(lim, ops), k, lim.strategy.windowMs, last) <= cap
  {
    if ops != [] {
      hide Ok, Agrees, Charged, AdmittedIn, Forward, Apply, Takes, AllTake, Spared, CapFor, Stamps;
      var init, op := ops[..|ops| - 1], ops[|ops| - 1];
      var now := LastClock(ops, end);
      UndisturbedPrefix(lim, ops, k, end);
      AdmittedWithinCap(lim, init, k, now, last, cap);
      RunAgrees(lim, init, k, now);
      assert OneHeldTo(lim, op, k, cap);
      AdmittedStep(lim, Exec(lim, init), Charges(lim, init), op, k, now, last, cap);
    } else {
      NothingAdmitted(k, lim.strategy.windowMs, last);
    }
  }

  lemma NothingAdmitted(k: Key, w: int, last: int)
    ensures AdmittedIn([], k, w, last) == 0
  {
  }

  /** With no more keys than the store may hold, the key cannot be evicted live. */
  lemma AdmittedWithinCapFewKeys(lim: Limits, ops: seq<StoreOp>, keys: set<Key>, k: Key, end: int, last: int, cap: int)
    requires lim.strategy.Valid() && lim.strategy.SlidingWindow? && AllTake(ops, k) && Forward(ops, end)
    requires Roomy(lim, keys) && KeysWithin(ops, keys) && cap >= 0 && HeldTo(lim, ops, k, cap)
    ensures AdmittedIn(Charges(lim, ops), k, lim.strategy.windowMs, last) <= cap
  {
    hide Ok, Charges, AdmittedIn, Forward, AllTake, HeldTo, Exec;
    RunHolds(lim, ops, keys);
    AdmittedWithinCap(lim, ops, k, end, last, cap);
  }
}
