/**
 The waiting queue in front of its own sliding-window store. Blocked and stale probes are
 charged to the store and undone later, at other clock readings, with purges in between;
 yet what the queue releases in any window stays within the cap.
 */
module QueueWindow {
  import opened Entries
  import opened EntryLaws
  import opened MemoryTable
  import opened QueueSpec
  import SlidingRuns
  import opened FewKeys

  /** A released request: when the store charged it, and when its promise was resolved. */
  datatype Release = Release(key: Key, cost: Cost, chargedAt: int, releasedAt: int)

  /** The store side: its table, the result and clock of each increment, and what was released. */
  datatype Side = Side(mem: Mem, results: map<nat, Result>, at: map<nat, int>, released: seq<Release>)

  datatype World = World(q: Q, side: Side, clock: int)

  datatype Move =
    | QueueEvent(ev: Event, now: int)
    | StorePurge(now: int)

  /** A sliding store that only this queue uses, with the queue's own cap. It may bound its keys. */
  ghost predicate Fits(cfg: Settings, lim: Limits) {
    && lim.strategy.Valid() && lim.strategy.SlidingWindow?
    && cfg.kind.SlidingKind? && cfg.maxRequests >= 1
  }

  /** The store acts when it is called; the reply only reports what it did. */
  ghost function Do(cfg: Settings, lim: Limits, s: Side, x: Effect, now: int): (r: Side)
    requires Fits(cfg, lim) && Ok(lim, s.mem)
    ensures Ok(lim, r.mem)
  {
    match x
    case Charge(c, k, cost) =>
      var (mem, res) := IncrementKey(lim, s.mem, k, Some(cfg.maxRequests), CostOf(cost), now);
      IncrementKeyOk(lim, s.mem, k, Some(cfg.maxRequests), CostOf(cost), now);
      s.(mem := mem, results := s.results[c := res], at := s.at[c := now])
    case Undo(c, k, cost, removeNewest) =>
      DecrementKeyOk(lim, s.mem, k, CostOf(cost), removeNewest);
      s.(mem := DecrementKey(lim, s.mem, k, CostOf(cost), removeNewest))
    case Resolve(c, e, _, _) =>
      s.(released := s.released + [Release(e.key, CostOf(e.cost), if c in s.at then s.at[c] else now, now)])
    case _ => s
  }

  ghost function DoAll(cfg: Settings, lim: Limits, s: Side, xs: seq<Effect>, now: int): (r: Side)
    requires Fits(cfg, lim) && Ok(lim, s.mem)
    ensures Ok(lim, r.mem)
  {
    if xs == [] then s else Do(cfg, lim, DoAll(cfg, lim, s, xs[..|xs| - 1], now), xs[|xs| - 1], now)
  }

  /** Replies carry what the store answered; the clock does not run back. */
  ghost predicate CanMove(cfg: Settings, w: World, mv: Move) {
    && w.clock <= mv.now
    && (mv.QueueEvent? ==>
          && Enabled(cfg, w.q, mv.ev)
          && (mv.ev.Reply? ==> mv.ev.call in w.side.results && mv.ev.result == w.side.results[mv.ev.call]))
  }

  ghost function Moved(cfg: Settings, lim: Limits, w: World, mv: Move): (r: World)
    requires Fits(cfg, lim) && Ok(lim, w.side.mem) && CanMove(cfg, w, mv)
    ensures Ok(lim, r.side.mem)
  {
    match mv
    case StorePurge(now) => World(w.q, w.side.(mem := Purge(lim, w.side.mem, now)), now)
    case QueueEvent(ev, now) =>
      var (q, effects) := Step(cfg, w.q, ev);
      World(q, DoAll(cfg, lim, w.side, effects, now), now)
  }

  /** Any sequence of moves; one that is not possible does nothing. */
  ghost function Play(cfg: Settings, lim: Limits, start: int, moves: seq<Move>): (w: World)
    requires Fits(cfg, lim)
    ensures Ok(lim, w.side.mem)
  {
    if moves == [] then World(INITIAL, Side(EMPTY, map[], map[], []), start)
    else
      var w, mv := Play(cfg, lim, start, moves[..|moves| - 1]), moves[|moves| - 1];
      if CanMove(cfg, w, mv) then Moved(cfg, lim, w, mv) else w
  }

  /** No `clear()` of the run overlaps a store call. */
  ghost predicate ClearsApart(cfg: Settings, lim: Limits, start: int, moves: seq<Move>)
    requires Fits(cfg, lim)
  {
    moves == [] ||
    (var (init, mv) := (moves[..|moves| - 1], moves[|moves| - 1]);
     ClearsApart(cfg, lim, start, init) && Apart(cfg, Play(cfg, lim, start, init), mv))
  }

  ghost predicate Apart(cfg: Settings, w: World, mv: Move) {
    mv.QueueEvent? && mv.ev.Clear? && CanMove(cfg, w, mv) ==> w.q.frames == map[]
  }

  // ----- one drain at a time ----------------------------------------------------------

  /**
   At most one drain is suspended, for the latest call, and never together with a retry timer;
   while either is there nobody else starts, except on a queue emptied by shutdown.
   */
  ghost predicate OneDrain(q: Q) {
    && (forall c :: c in q.frames ==> c == q.nextCall - 1)
    && !(q.timer && q.frames != map[])
    && (q.ctl.Polling? ==> q.isShutdown)
    && (q.timer || q.frames != map[] ==> q.processing || (q.isShutdown && q.queue == []))
  }

  lemma DrainOneDrain(q: Q)
    requires OneDrain(q)
    ensures OneDrain(Drain(q).0) && Drain(q).0.isShutdown == q.isShutdown
  {
  }

  lemma NoFrames(frames: map<nat, Frame>, c: nat)
    requires c in frames && forall x :: x in frames ==> x == c
    ensures frames - {c} == map[]
  {
  }

  lemma PollOneDrain(q: Q, waiting: nat, pollsLeft: nat)
    requires OneDrain(q) && q.isShutdown
    ensures OneDrain(Poll(q, waiting, pollsLeft).0)
  {
    hide OneDrain;
    DrainOneDrain(q);
    ClearedOneDrain(Drain(q).0, waiting);
    CtlOneDrain(Drain(q).0, Polling(waiting, pollsLeft));
  }

  lemma CtlOneDrain(q: Q, ctl: Ctl)
    requires OneDrain(q) && q.isShutdown
    ensures OneDrain(q.(ctl := ctl))
  {
  }

  lemma ClearedOneDrain(q: Q, waiting: nat)
    requires OneDrain(q) && q.isShutdown
    ensures forall ctl, n: nat ::
            OneDrain(q.(timer := false, queue := [], processing := false, timeouts := n, ctl := ctl))
  {
  }

  /** Without a `clear()` that overlaps a store call, drains never overlap. */
  lemma StepOneDrain(cfg: Settings, q: Q, ev: Event)
    requires OneDrain(q) && Enabled(cfg, q, ev) && (ev.Clear? ==> q.frames == map[])
    ensures OneDrain(Step(cfg, q, ev).0)
  {
    match ev
    case RemoveTokens(key, cost) =>
      if Refusal(cfg, q, cost).None? {
        DrainOneDrain(q.(queue := q.queue + [Entry(q.nextId, key, cost)], nextId := q.nextId + 1));
      }
    case WaitTimeout(e) => TimeoutOneDrain(q, e);
    case Retry => DrainOneDrain(q.(timer := false, processing := false));
    case Reply(c, res) => NoFrames(q.frames, c);
    case UndoDone(c) => NoFrames(q.frames, c);
    case Clear =>
    case Shutdown(ms) =>
      if !q.isShutdown {
        PollOneDrain(q.(timeouts := 0, isShutdown := true), |q.queue|, Polls(ms));
      }
    case PollTick => PollOneDrain(q, q.ctl.waiting, Max(0, q.ctl.pollsLeft - 1));
  }

  lemma TimeoutOneDrain(q: Q, e: Entry)
    requires OneDrain(q) && e in q.queue
    ensures OneDrain(OnWaitTimeout(q, e).0)
  {
    hide Drain, Loop;
    var gone := q.(queue := Remove(q.queue, e), timeouts := if q.isShutdown then q.timeouts + 1 else q.timeouts);
    DrainOneDrain(if q.queue[0] == e && q.timer then gone.(timer := false, processing := false) else gone);
  }

  // ----- what the store keeps of a key ----------------------------------------------------

  /** The call that a drain is awaiting, if any. */
  datatype Flight = Flight(call: nat, key: Key, cost: Cost)

  ghost function InFlight(q: Q): (f: Option<Flight>) {
    var c := q.nextCall - 1;
    if c in q.frames && q.frames[c].AwaitIncrement? then
      Some(Flight(c, q.frames[c].entry.key, CostOf(q.frames[c].entry.cost)))
    else None
  }

  /** Stamps of the released cost of a key, at the times the store charged it. */
  ghost function Released(released: seq<Release>, k: Key): (s: seq<int>) {
    if released == [] then []
    else
      var r := released[|released| - 1];
      Released(released[..|released| - 1], k) + if r.key == k then Repeat(r.chargedAt, r.cost) else []
  }

  ghost function Probe(s: Side, f: Option<Flight>, k: Key): (r: seq<int>) {
    if f.Some? && f.value.key == k && f.value.call in s.at then Repeat(s.at[f.value.call], f.value.cost) else []
  }

  ghost predicate NotLater(stamps: seq<int>, now: int) {
    forall i :: 0 <= i < |stamps| ==> stamps[i] <= now
  }

  /** The store holds exactly the part of `hist` after some past cutoff. */
  ghost predicate KeptFrom(m: Mem, hist: seq<int>, k: Key, cutoff: int) {
    if k in m.entries then m.entries[k] == Sliding(Cut(hist, cutoff), None) else Cut(hist, cutoff) == []
  }

  ghost predicate Kept(lim: Limits, m: Mem, hist: seq<int>, k: Key, now: int)
    requires lim.strategy.SlidingWindow?
  {
    exists cutoff :: cutoff <= now - lim.strategy.windowMs && KeptFrom(m, hist, k, cutoff)
  }

  /** Cost in the window that ends at `last`. */
  ghost function InWindow(stamps: seq<int>, w: int, last: int): (n: nat) {
    CountIn(stamps, last - w, last)
  }

  /** The flight's own terms: when it was charged, and that the store's answer was about the released cost. */
  ghost predicate Answered(cfg: Settings, lim: Limits, s: Side, f: Flight, rel: seq<int>, now: int)
    requires lim.strategy.SlidingWindow?
  {
    && f.call in s.at && f.call in s.results && s.at[f.call] <= now && NotLater(rel, s.at[f.call])
    && (s.results[f.call].isBlocked <==> |Cut(rel, s.at[f.call] - lim.strategy.windowMs)| + f.cost > cfg.maxRequests)
  }

  /** What the store and the record say about one key. */
  ghost predicate KeySide(cfg: Settings, lim: Limits, s: Side, f: Option<Flight>, k: Key, last: int, now: int)
    requires Fits(cfg, lim)
  {
    var rel := Released(s.released, k);
    && Kept(lim, s.mem, rel + Probe(s, f, k), k, now)
    && NotLater(rel, now)
    && (f.Some? && f.value.key == k ==> Answered(cfg, lim, s, f.value, rel, now))
    && InWindow(rel, lim.strategy.windowMs, last) <= cfg.maxRequests
  }

  ghost predicate SideInv(cfg: Settings, lim: Limits, s: Side, f: Option<Flight>, k: Key, last: int, now: int)
    requires Fits(cfg, lim)
  {
    && Ok(lim, s.mem)
    && (f.Some? ==> f.value.call in s.at)
    && (Spared(s.mem, k) ==> KeySide(cfg, lim, s, f, k, last, now))
  }

  lemma SideLater(cfg: Settings, lim: Limits, s: Side, f: Option<Flight>, k: Key, last: int, now: int, later: int)
    requires Fits(cfg, lim) && SideInv(cfg, lim, s, f, k, last, now) && now <= later
    ensures SideInv(cfg, lim, s, f, k, last, later)
  {
    hide Ok, InWindow, KeptFrom, Cut;
  }

  // ----- increments and undos ---------------------------------------------------------------

  /** Another key's increment leaves a key as it is, or drops it with its whole window over, or evicts it live. */
  lemma OtherKeyKept(lim: Limits, m: Mem, x: Key, override: Option<int>, n: Cost, hist: seq<int>, k: Key, now: int,
      cutoff: int)
    requires Ok(lim, m) && lim.strategy.SlidingWindow? && x != k && cutoff <= now - lim.strategy.windowMs
    requires KeptFrom(m, hist, k, cutoff)
    ensures var r := IncrementKey(lim, m, x, override, n, now).0;
            m.evicted <= r.evicted && (Spared(r, k) ==> Spared(m, k) && Kept(lim, r, hist, k, now))
  {
    hide Ok, Cut, Claim, Increment;
    var (r, lo) := (IncrementKey(lim, m, x, override, n, now).0, now - lim.strategy.windowMs);
    OkEntry(lim, m, k);
    IncrementGrows(lim, m, x, override, n, now);
    SlidingRuns.OtherKeyAfterClaim(lim, m, x, now, k);
    SparedBefore(m, r, k);
    if Lookup(r, k) == Lookup(m, k) {
      SameEntryKept(m, r, hist, k, cutoff);
    } else if Spared(r, k) {
      CutCut(hist, cutoff, lo);
      assert KeptFrom(r, hist, k, lo);
    }
  }

  lemma OtherKeyUndone(lim: Limits, m: Mem, x: Key, n: Cost, removeNewest: bool, k: Key)
    requires Ok(lim, m) && x != k
    ensures lim.strategy.Valid() && (x in m.entries ==> Matches(lim.strategy, m.entries[x]))
    ensures var r := DecrementKey(lim, m, x, n, removeNewest); Lookup(r, k) == Lookup(m, k)
  {
    OkEntry(lim, m, x);
    hide Ok, Decrement;
  }

  lemma UndoEvictsNone(lim: Limits, m: Mem, x: Key, n: Cost, removeNewest: bool)
    requires Ok(lim, m)
    ensures lim.strategy.Valid() && (x in m.entries ==> Matches(lim.strategy, m.entries[x]))
    ensures DecrementKey(lim, m, x, n, removeNewest).evicted == m.evicted
  {
    OkEntry(lim, m, x);
    hide Ok, Decrement;
  }

  /** An increment keeps exactly the extended history, and answers by its live part. */
  lemma IncrementKeeps(lim: Limits, m: Mem, hist: seq<int>, k: Key, override: Option<int>, n: Cost, now: int,
      cutoff: int)
    requires Ok(lim, m) && lim.strategy.SlidingWindow? && KeptFrom(m, hist, k, cutoff)
    requires cutoff <= now - lim.strategy.windowMs
    ensures var (r, res) := IncrementKey(lim, m, k, override, n, now);
            && KeptFrom(r, hist + Repeat(now, n), k, now - lim.strategy.windowMs)
            && (res.isBlocked <==> |Cut(hist, now - lim.strategy.windowMs)| + n > CapFor(lim.strategy, override))
  {
    hide Ok, Claim, MakeRoom, Cut, CapFor;
    OkEntry(lim, m, k);
    var lo := now - lim.strategy.windowMs;
    CutCut(hist, cutoff, lo);
    CutOfNothing(lo);
    CutConcat(hist, Repeat(now, n), lo);
    CutKeepsLater(Repeat(now, n), lo);
  }

  lemma CutOfNothing(lo: int)
    ensures Cut([], lo) == []
  {
  }

  /**
   Dropping the newest `n` of a history that ends in `n` stamps at `at` leaves the history before, whatever has
   expired.
   */
  lemma UndoKeeps(lim: Limits, m: Mem, hist: seq<int>, k: Key, at: int, n: Cost, cutoff: int)
    requires Ok(lim, m) && lim.strategy.SlidingWindow? && NotLater(hist, at)
    requires KeptFrom(m, hist + Repeat(at, n), k, cutoff)
    ensures KeptFrom(DecrementKey(lim, m, k, n, true), hist, k, cutoff)
  {
    hide Ok, Cut;
    OkEntry(lim, m, k);
    CutConcat(hist, Repeat(at, n), cutoff);
    if at > cutoff {
      CutKeepsLater(Repeat(at, n), cutoff);
      var kept := Cut(hist, cutoff) + Repeat(at, n);
      assert kept[..|kept| - n] == Cut(hist, cutoff);
    } else {
      CutDropsEarlier(hist, cutoff);
      CutDropsEarlier(Repeat(at, n), cutoff);
    }
  }

  /** Admitting on an answer about the live part keeps every window within the cap. */
  lemma ReleaseFits(rel: seq<int>, at: int, n: Cost, w: int, cap: int, last: int)
    requires w >= 1 && InWindow(rel, w, last) <= cap && NotLater(rel, at) && |Cut(rel, at - w)| + n <= cap
    ensures InWindow(rel + Repeat(at, n), w, last) <= cap
  {
    hide Cut, CountIn;
    CountInConcat(rel, Repeat(at, n), last - w, last);
    CountInRepeat(at, n, last - w, last);
    if last - w < at <= last {
      CountInShrinks(rel, at - w, at, last - w, last);
      CountInIsCut(rel, at - w, at);
    }
  }

  // ----- effects on the store side -----------------------------------------------------------

  lemma ChargeSide(cfg: Settings, lim: Limits, s: Side, x: Effect, k: Key, last: int, now: int)
    requires Fits(cfg, lim) && SideInv(cfg, lim, s, None, k, last, now) && x.Charge?
    ensures SideInv(cfg, lim, Do(cfg, lim, s, x, now), Some(Flight(x.call, x.key, CostOf(x.cost))), k, last, now)
  {
    hide Ok, KeySide, IncrementKey;
    IncrementKeyOk(lim, s.mem, x.key, Some(cfg.maxRequests), CostOf(x.cost), now);
    IncrementGrows(lim, s.mem, x.key, Some(cfg.maxRequests), CostOf(x.cost), now);
    SparedBefore(s.mem, Do(cfg, lim, s, x, now).mem, k);
    if Spared(Do(cfg, lim, s, x, now).mem, k) {
      ChargeKey(cfg, lim, s, x, k, last, now);
    }
  }

  lemma ChargeKey(cfg: Settings, lim: Limits, s: Side, x: Effect, k: Key, last: int, now: int)
    requires Fits(cfg, lim) && Ok(lim, s.mem) && KeySide(cfg, lim, s, None, k, last, now) && x.Charge?
    requires Spared(Do(cfg, lim, s, x, now).mem, k)
    ensures KeySide(cfg, lim, Do(cfg, lim, s, x, now), Some(Flight(x.call, x.key, CostOf(x.cost))), k, last, now)
  {
    hide Ok, Cut, InWindow, IncrementKey, Released, Spared;
    var n, rel := CostOf(x.cost), Released(s.released, k);
    assert rel + [] == rel;
    var cutoff :| cutoff <= now - lim.strategy.windowMs && KeptFrom(s.mem, rel + Probe(s, None, k), k, cutoff);
    if x.key == k {
      IncrementKeeps(lim, s.mem, rel, k, Some(cfg.maxRequests), n, now, cutoff);
    } else {
      OtherKeyKept(lim, s.mem, x.key, Some(cfg.maxRequests), n, rel, k, now, cutoff);
    }
  }

  lemma SameEntryKept(m: Mem, r: Mem, hist: seq<int>, k: Key, cutoff: int)
    requires Lookup(m, k) == Lookup(r, k) && KeptFrom(m, hist, k, cutoff)
    ensures KeptFrom(r, hist, k, cutoff)
  {
    hide Cut;
  }

  lemma UndoSide(cfg: Settings, lim: Limits, s: Side, x: Effect, k: Key, last: int, now: int)
    requires Fits(cfg, lim) && x.Undo? && x.removeNewest
    requires SideInv(cfg, lim, s, Some(Flight(x.call, x.key, CostOf(x.cost))), k, last, now)
    ensures SideInv(cfg, lim, Do(cfg, lim, s, x, now), None, k, last, now)
  {
    hide Ok, Cut, InWindow, DecrementKey, Released;
    var n, rel := CostOf(x.cost), Released(s.released, k);
    var f := Some(Flight(x.call, x.key, n));
    DecrementKeyOk(lim, s.mem, x.key, n, true);
    UndoEvictsNone(lim, s.mem, x.key, n, true);
    if Spared(s.mem, k) {
      assert rel + [] == rel;
      var cutoff :| cutoff <= now - lim.strategy.windowMs && KeptFrom(s.mem, rel + Probe(s, f, k), k, cutoff);
      if x.key == k {
        UndoKeeps(lim, s.mem, rel, k, s.at[x.call], n, cutoff);
      } else {
        OtherKeyUndone(lim, s.mem, x.key, n, true, k);
        SameEntryKept(s.mem, Do(cfg, lim, s, x, now).mem, rel, k, cutoff);
      }
    }
  }

  lemma ResolveSide(cfg: Settings, lim: Limits, s: Side, x: Effect, k: Key, last: int, now: int)
    requires Fits(cfg, lim) && x.Resolve? && x.call in s.results && !s.results[x.call].isBlocked
    requires SideInv(cfg, lim, s, Some(Flight(x.call, x.entry.key, CostOf(x.entry.cost))), k, last, now)
    ensures SideInv(cfg, lim, Do(cfg, lim, s, x, now), None, k, last, now)
  {
    hide Ok, Cut, InWindow, Kept;
    var n, rel := CostOf(x.entry.cost), Released(s.released, k);
    var r := Do(cfg, lim, s, x, now);
    assert r.released[..|s.released|] == s.released;
    assert rel + [] == rel;
    var now2 := Released(r.released, k);
    assert now2 + [] == now2;
    if x.entry.key == k && Spared(s.mem, k) {
      ReleaseFits(rel, s.at[x.call], n, lim.strategy.windowMs, cfg.maxRequests, last);
    }
  }

  lemma PurgeSide(cfg: Settings, lim: Limits, s: Side, f: Option<Flight>, k: Key, last: int, now: int)
    requires Fits(cfg, lim) && SideInv(cfg, lim, s, f, k, last, now)
    ensures SideInv(cfg, lim, s.(mem := Purge(lim, s.mem, now)), f, k, last, now)
  {
    hide Ok, Cut, InWindow, KeptFrom, Released, Purge;
    var hist := Released(s.released, k) + Probe(s, f, k);
    PurgeGrows(lim, s.mem, now);
    SparedBefore(s.mem, Purge(lim, s.mem, now), k);
    if Spared(s.mem, k) {
      var cutoff :| cutoff <= now - lim.strategy.windowMs && KeptFrom(s.mem, hist, k, cutoff);
      PurgeKeeps(lim, s.mem, hist, k, now, cutoff);
      assert Probe(s.(mem := Purge(lim, s.mem, now)), f, k) == Probe(s, f, k);
    }
  }

  /** A purge only moves the cutoff. */
  lemma PurgeKeeps(lim: Limits, m: Mem, hist: seq<int>, k: Key, now: int, cutoff: int)
    requires Ok(lim, m) && lim.strategy.SlidingWindow? && cutoff <= now - lim.strategy.windowMs
    requires KeptFrom(m, hist, k, cutoff)
    ensures Kept(lim, Purge(lim, m, now), hist, k, now)
  {
    hide Ok, Cut, PurgeAll, KeptFrom;
    assert Kept(lim, m, hist, k, now);
    PurgeAllKeeps(lim, m, m.order, WallPass, hist, k, now);
    var walls := PurgeAll(lim, m, m.order, WallPass, now);
    PurgeAllKeeps(lim, walls, walls.order, TrimPass, hist, k, now);
  }

  lemma {:induction false} PurgeAllKeeps(lim: Limits, m: Mem, keys: seq<Key>, pass: Pass, hist: seq<int>, k: Key,
      now: int)
    requires Ok(lim, m) && lim.strategy.SlidingWindow? && Kept(lim, m, hist, k, now)
    ensures Kept(lim, PurgeAll(lim, m, keys, pass, now), hist, k, now)
  {
    hide Ok, Cut, PurgeOne, Kept;
    if keys != [] {
      PurgeAllKeeps(lim, m, keys[..|keys| - 1], pass, hist, k, now);
      OkStrategy(lim, PurgeAll(lim, m, keys[..|keys| - 1], pass, now));
      PurgeOneKeeps(lim, PurgeAll(lim, m, keys[..|keys| - 1], pass, now), keys[|keys| - 1], pass, hist, k, now);
    }
  }

  lemma PurgeOneKeeps(lim: Limits, m: Mem, x: Key, pass: Pass, hist: seq<int>, k: Key, now: int)
    requires Ok(lim, m) && lim.strategy.SlidingWindow? && Kept(lim, m, hist, k, now)
    requires x in m.entries ==> Matches(lim.strategy, m.entries[x])
    ensures Kept(lim, PurgeOne(lim, m, x, pass, now), hist, k, now)
  {
    hide Ok, Cut;
    var lo := now - lim.strategy.windowMs;
    var cutoff :| cutoff <= lo && KeptFrom(m, hist, k, cutoff);
    CutCut(hist, cutoff, lo);
    if x != k || k !in m.entries || pass.WallPass? || |Cut(m.entries[k].stamps, lo)| == |m.entries[k].stamps| != 0 {
      SameEntryKept(m, PurgeOne(lim, m, x, pass, now), hist, k, cutoff);
    } else {
      assert KeptFrom(PurgeOne(lim, m, x, pass, now), hist, k, lo);
    }
  }

  // ----- steps of the queue on the store side ---------------------------------------------------

  predicate Inert(x: Effect) {
    !(x.Charge? || x.Undo? || x.Resolve?)
  }

  lemma DoAllSnoc(cfg: Settings, lim: Limits, s: Side, xs: seq<Effect>, x: Effect, now: int)
    requires Fits(cfg, lim) && Ok(lim, s.mem)
    ensures DoAll(cfg, lim, s, xs + [x], now) == Do(cfg, lim, DoAll(cfg, lim, s, xs, now), x, now)
  {
    assert (xs + [x])[..|xs|] == xs;
  }

  lemma DoOne(cfg: Settings, lim: Limits, s: Side, x: Effect, now: int)
    requires Fits(cfg, lim) && Ok(lim, s.mem)
    ensures DoAll(cfg, lim, s, [x], now) == Do(cfg, lim, s, x, now)
  {
    assert [x][..0] == [];
  }

  lemma {:induction false} DoInert(cfg: Settings, lim: Limits, s: Side, xs: seq<Effect>, ys: seq<Effect>, now: int)
    requires Fits(cfg, lim) && Ok(lim, s.mem) && forall i :: 0 <= i < |ys| ==> Inert(ys[i])
    ensures DoAll(cfg, lim, s, xs + ys, now) == DoAll(cfg, lim, s, xs, now)
  {
    if ys == [] {
      assert xs + ys == xs;
    } else {
      var init := ys[..|ys| - 1];
      DoInert(cfg, lim, s, xs, init, now);
      assert (xs + ys)[..|xs + ys| - 1] == xs + init;
    }
  }

  lemma {:induction false} RejectAllInert(queue: seq<Entry>, code: Code)
    ensures forall i :: 0 <= i < |RejectAll(queue, code)| ==> Inert(RejectAll(queue, code)[i])
  {
    if queue != [] {
      RejectAllInert(queue[1..], code);
    }
  }

  /** The state of the store side after effects `xs`, and the flight it belongs to. */
  ghost predicate After(cfg: Settings, lim: Limits, s: Side, xs: seq<Effect>, f: Option<Flight>, k: Key, last: int,
      now: int)
    requires Fits(cfg, lim)
  {
    Ok(lim, s.mem) && SideInv(cfg, lim, DoAll(cfg, lim, s, xs, now), f, k, last, now)
  }

  lemma LoopSide(cfg: Settings, lim: Limits, q: Q, s: Side, xs: seq<Effect>, k: Key, last: int, now: int)
    requires Fits(cfg, lim) && q.frames == map[] && After(cfg, lim, s, xs, None, k, last, now)
    ensures After(cfg, lim, s, xs + Loop(q).1, InFlight(Loop(q).0), k, last, now)
  {
    hide Ok, SideInv, Do;
    if q.queue == [] {
      assert xs + [] == xs;
    } else {
      var x := Loop(q).1[0];
      DoAllSnoc(cfg, lim, s, xs, x, now);
      ChargeSide(cfg, lim, DoAll(cfg, lim, s, xs, now), x, k, last, now);
    }
  }

  lemma DrainSide(cfg: Settings, lim: Limits, q: Q, s: Side, xs: seq<Effect>, k: Key, last: int, now: int)
    requires Fits(cfg, lim) && OneDrain(q) && After(cfg, lim, s, xs, InFlight(q), k, last, now)
    ensures After(cfg, lim, s, xs + Drain(q).1, InFlight(Drain(q).0), k, last, now)
  {
    hide Ok, SideInv, Do, DoAll, After;
    if q.processing || (q.frames != map[] && q.queue == []) {
      assert xs + [] == xs;
    } else {
      LoopSide(cfg, lim, q.(processing := true), s, xs, k, last, now);
    }
  }

  lemma InertSide(cfg: Settings, lim: Limits, s: Side, xs: seq<Effect>, ys: seq<Effect>, f: Option<Flight>, k: Key,
      last: int, now: int)
    requires Fits(cfg, lim) && After(cfg, lim, s, xs, f, k, last, now) && forall i :: 0 <= i < |ys| ==> Inert(ys[i])
    ensures After(cfg, lim, s, xs + ys, f, k, last, now)
  {
    hide Ok, SideInv, Do, DoAll;
    DoInert(cfg, lim, s, xs, ys, now);
  }

  lemma ReplySide(cfg: Settings, lim: Limits, q: Q, s: Side, c: nat, res: Result, k: Key, last: int, now: int)
    requires Fits(cfg, lim) && OneDrain(q) && c in q.frames && q.frames[c].AwaitIncrement?
    requires c in s.results && s.results[c] == res && Ok(lim, s.mem) && SideInv(cfg, lim, s, InFlight(q), k, last, now)
    ensures var (next, xs) := OnReply(cfg, q, c, res);
            After(cfg, lim, s, xs, InFlight(next), k, last, now)
  {
    hide Ok, SideInv, Do, Loop;
    var e := q.frames[c].entry;
    if q.queue == [] || q.queue[0] != e || res.isBlocked {
      UndoSide(cfg, lim, s, UndoCall(cfg, c, e, res.isBlocked), k, last, now);
      DoOne(cfg, lim, s, UndoCall(cfg, c, e, res.isBlocked), now);
    } else {
      var won := Resolve(c, e, res.remaining, res.resetTime);
      ResolveSide(cfg, lim, s, won, k, last, now);
      DoOne(cfg, lim, s, won, now);
      NoFrames(q.frames, c);
      LoopSide(cfg, lim, q.(queue := q.queue[1..], frames := q.frames - {c}), s, [won], k, last, now);
    }
  }

  lemma TimeoutSide(cfg: Settings, lim: Limits, q: Q, s: Side, e: Entry, k: Key, last: int, now: int)
    requires Fits(cfg, lim) && OneDrain(q) && e in q.queue && After(cfg, lim, s, [], InFlight(q), k, last, now)
    ensures After(cfg, lim, s, OnWaitTimeout(q, e).1, InFlight(OnWaitTimeout(q, e).0), k, last, now)
  {
    hide Ok, SideInv, Do, DoAll, After, Loop, Drain;
    var gone := q.(queue := Remove(q.queue, e), timeouts := if q.isShutdown then q.timeouts + 1 else q.timeouts);
    var idle := if q.queue[0] == e && q.timer then gone.(timer := false, processing := false) else gone;
    InertSide(cfg, lim, s, [], [Reject(e, QueueTimeout)], InFlight(q), k, last, now);
    assert [] + [Reject(e, QueueTimeout)] == [Reject(e, QueueTimeout)];
    DrainSide(cfg, lim, idle, s, [Reject(e, QueueTimeout)], k, last, now);
  }

  lemma PollSide(cfg: Settings, lim: Limits, q: Q, s: Side, xs: seq<Effect>, waiting: nat, pollsLeft: nat, k: Key,
      last: int, now: int)
    requires Fits(cfg, lim) && OneDrain(q) && After(cfg, lim, s, xs, InFlight(q), k, last, now)
    ensures var (next, more) := Poll(q, waiting, pollsLeft);
            After(cfg, lim, s, xs + more, InFlight(next), k, last, now)
  {
    hide Ok, SideInv, Do, DoAll, After, Loop, Drain;
    var (d, effects) := Drain(q);
    DrainSide(cfg, lim, q, s, xs, k, last, now);
    var rejects, done := RejectAll(d.queue, QueueShutdown),
      [ShutdownDone(|d.queue|, Max(0, waiting - |d.queue| - d.timeouts))];
    RejectAllInert(d.queue, QueueShutdown);
    InertSide(cfg, lim, s, xs + effects, rejects, InFlight(d), k, last, now);
    InertSide(cfg, lim, s, xs + effects + rejects, done, InFlight(d), k, last, now);
    assert xs + (effects + rejects + done) == xs + effects + rejects + done;
  }

  lemma StepSide(cfg: Settings, lim: Limits, q: Q, s: Side, ev: Event, k: Key, last: int, now: int)
    requires Fits(cfg, lim) && OneDrain(q) && Enabled(cfg, q, ev)
    requires ev.Reply? ==> ev.call in s.results && ev.result == s.results[ev.call]
    requires Ok(lim, s.mem) && SideInv(cfg, lim, s, InFlight(q), k, last, now)
    ensures var (next, xs) := Step(cfg, q, ev);
            After(cfg, lim, s, xs, InFlight(next), k, last, now)
  {
    hide Ok, SideInv, Do, DoAll, After, Loop, Drain, Poll, OnReply, OnWaitTimeout;
    NothingYet(cfg, lim, s, InFlight(q), k, last, now);
    match ev
    case RemoveTokens(key, cost) =>
      if Refusal(cfg, q, cost).Some? {
        InertSide(cfg, lim, s, [], [Refuse(Refusal(cfg, q, cost).value)], InFlight(q), k, last, now);
        assert [] + Step(cfg, q, ev).1 == Step(cfg, q, ev).1;
      } else {
        var more := q.(queue := q.queue + [Entry(q.nextId, key, cost)], nextId := q.nextId + 1);
        DrainSide(cfg, lim, more, s, [], k, last, now);
        assert [] + Drain(more).1 == Drain(more).1;
      }
    case WaitTimeout(e) => TimeoutSide(cfg, lim, q, s, e, k, last, now);
    case Retry =>
      var woken := q.(timer := false, processing := false);
      DrainSide(cfg, lim, woken, s, [], k, last, now);
      assert [] + Drain(woken).1 == Drain(woken).1;
    case Reply(c, res) => ReplySide(cfg, lim, q, s, c, res, k, last, now);
    case UndoDone(c) =>
      NoFrames(q.frames, c);
      var rest := q.(frames := q.frames - {c});
      LoopSide(cfg, lim, rest, s, [], k, last, now);
      assert [] + Loop(rest).1 == Loop(rest).1;
    case Clear =>
      RejectAllInert(q.queue, QueueCleared);
      InertSide(cfg, lim, s, [], RejectAll(q.queue, QueueCleared), InFlight(q), k, last, now);
      assert [] + RejectAll(q.queue, QueueCleared) == RejectAll(q.queue, QueueCleared);
    case Shutdown(ms) => ShutdownSide(cfg, lim, q, s, ms, k, last, now);
    case PollTick =>
      PollSide(cfg, lim, q, s, [], q.ctl.waiting, Max(0, q.ctl.pollsLeft - 1), k, last, now);
      assert [] + Step(cfg, q, ev).1 == Step(cfg, q, ev).1;
  }

  lemma ShutdownSide(cfg: Settings, lim: Limits, q: Q, s: Side, ms: int, k: Key, last: int, now: int)
    requires Fits(cfg, lim) && OneDrain(q) && After(cfg, lim, s, [], InFlight(q), k, last, now)
    ensures After(cfg, lim, s, OnShutdown(q, ms).1, InFlight(OnShutdown(q, ms).0), k, last, now)
  {
    hide Ok, SideInv, Do, DoAll, After, Poll;
    if q.isShutdown {
      InertSide(cfg, lim, s, [], OnShutdown(q, ms).1, InFlight(q), k, last, now);
      assert [] + OnShutdown(q, ms).1 == OnShutdown(q, ms).1;
    } else {
      var begun, start := [ShutdownStarted(|q.queue|)], q.(timeouts := 0, isShutdown := true);
      InertSide(cfg, lim, s, [], begun, InFlight(q), k, last, now);
      assert [] + begun == begun;
      PollSide(cfg, lim, start, s, begun, |q.queue|, Polls(ms), k, last, now);
    }
  }

  lemma NothingYet(cfg: Settings, lim: Limits, s: Side, f: Option<Flight>, k: Key, last: int, now: int)
    requires Fits(cfg, lim) && Ok(lim, s.mem) && SideInv(cfg, lim, s, f, k, last, now)
    ensures After(cfg, lim, s, [], f, k, last, now)
  {
    hide Ok, SideInv;
  }

  // ----- whole runs ----------------------------------------------------------------------------

  ghost predicate WorldInv(cfg: Settings, lim: Limits, w: World, k: Key, last: int)
    requires Fits(cfg, lim)
  {
    OneDrain(w.q) && SideInv(cfg, lim, w.side, InFlight(w.q), k, last, w.clock)
  }

  lemma MoveKeeps(cfg: Settings, lim: Limits, w: World, mv: Move, k: Key, last: int)
    requires Fits(cfg, lim) && Ok(lim, w.side.mem) && WorldInv(cfg, lim, w, k, last) && CanMove(cfg, w, mv)
    requires Apart(cfg, w, mv)
    ensures WorldInv(cfg, lim, Moved(cfg, lim, w, mv), k, last)
  {
    hide Ok, SideInv, OneDrain, Step, DoAll, InFlight;
    SideLater(cfg, lim, w.side, InFlight(w.q), k, last, w.clock, mv.now);
    match mv
    case StorePurge(now) => PurgeSide(cfg, lim, w.side, InFlight(w.q), k, last, now);
    case QueueEvent(ev, now) =>
      StepOneDrain(cfg, w.q, ev);
      StepSide(cfg, lim, w.q, w.side, ev, k, last, now);
  }

  lemma {:induction false} PlayKeeps(cfg: Settings, lim: Limits, start: int, moves: seq<Move>, k: Key, last: int)
    requires Fits(cfg, lim) && ClearsApart(cfg, lim, start, moves)
    ensures WorldInv(cfg, lim, Play(cfg, lim, start, moves), k, last)
  {
    hide Ok, WorldInv, CanMove, Moved;
    if moves == [] {
      StartKeeps(cfg, lim, start, k, last);
    } else {
      PlayKeeps(cfg, lim, start, moves[..|moves| - 1], k, last);
      var w := Play(cfg, lim, start, moves[..|moves| - 1]);
      if CanMove(cfg, w, moves[|moves| - 1]) {
        MoveKeeps(cfg, lim, w, moves[|moves| - 1], k, last);
      }
    }
  }

  lemma StartKeeps(cfg: Settings, lim: Limits, start: int, k: Key, last: int)
    requires Fits(cfg, lim)
    ensures WorldInv(cfg, lim, World(INITIAL, Side(EMPTY, map[], map[], []), start), k, last)
  {
    assert KeptFrom(EMPTY, [], k, start - lim.strategy.windowMs);
    var none: seq<int> := [];
    assert none + none == none;
  }

  /** No `clear()` overlaps a store call, and the store never dropped the key while it still limited something. */
  ghost predicate Undisturbed(cfg: Settings, lim: Limits, start: int, moves: seq<Move>, k: Key)
    requires Fits(cfg, lim)
  {
    ClearsApart(cfg, lim, start, moves) && Spared(Play(cfg, lim, start, moves).side.mem, k)
  }

  /** The cost charged for released requests of a key, in any window of the store, is within the cap. */
  lemma ReleasedWithinCap(cfg: Settings, lim: Limits, start: int, moves: seq<Move>, k: Key, last: int)
    requires Fits(cfg, lim) && Undisturbed(cfg, lim, start, moves, k)
    ensures InWindow(Released(Play(cfg, lim, start, moves).side.released, k), lim.strategy.windowMs, last)
            <= cfg.maxRequests
  {
    hide Ok, Play, OneDrain, InWindow, Released;
    PlayKeeps(cfg, lim, start, moves, k, last);
  }

  // ----- few keys ---------------------------------------------------------------------------------

  /** The keys that are ever requested. */
  ghost function KeysOf(moves: seq<Move>): (keys: set<Key>) {
    if moves == [] then {}
    else
      var mv := moves[|moves| - 1];
      KeysOf(moves[..|moves| - 1]) + if mv.QueueEvent? && mv.ev.RemoveTokens? then {mv.ev.key} else {}
  }

  ghost predicate Waits(queue: seq<Entry>, keys: set<Key>) {
    forall e :: e in queue ==> e.key in keys
  }

  ghost predicate ChargesOf(xs: seq<Effect>, keys: set<Key>) {
    forall i :: 0 <= i < |xs| && xs[i].Charge? ==> xs[i].key in keys
  }

  lemma {:induction false} RemoveWaits(queue: seq<Entry>, e: Entry, keys: set<Key>)
    requires Waits(queue, keys)
    ensures Waits(Remove(queue, e), keys)
  {
    if queue != [] {
      assert queue == [queue[0]] + queue[1..];
      RemoveWaits(queue[1..], e, keys);
    }
  }

  lemma DrainKeys(q: Q, keys: set<Key>)
    requires Waits(q.queue, keys)
    ensures Drain(q).0.queue == q.queue && ChargesOf(Drain(q).1, keys)
    ensures Loop(q).0.queue == q.queue && ChargesOf(Loop(q).1, keys)
  {
  }

  lemma ChargesConcat(a: seq<Effect>, b: seq<Effect>, keys: set<Key>)
    requires ChargesOf(a, keys) && ChargesOf(b, keys)
    ensures ChargesOf(a + b, keys)
  {
  }

  lemma PollKeys(q: Q, waiting: nat, pollsLeft: nat, keys: set<Key>)
    requires Waits(q.queue, keys)
    ensures Waits(Poll(q, waiting, pollsLeft).0.queue, keys) && ChargesOf(Poll(q, waiting, pollsLeft).1, keys)
  {
    hide Drain, RejectAll;
    DrainKeys(q, keys);
    var (d, effects) := Drain(q);
    RejectAllInert(d.queue, QueueShutdown);
    ChargesConcat(effects, RejectAll(d.queue, QueueShutdown), keys);
  }

  /** Only keys that were requested are ever charged. */
  lemma StepKeys(cfg: Settings, q: Q, ev: Event, keys: set<Key>)
    requires Enabled(cfg, q, ev) && Waits(q.queue, keys) && (ev.RemoveTokens? ==> ev.key in keys)
    ensures Waits(Step(cfg, q, ev).0.queue, keys) && ChargesOf(Step(cfg, q, ev).1, keys)
  {
    hide Drain, Loop, Poll, Waits, RejectAll, Remove;
    match ev
    case RemoveTokens(key, cost) =>
      var more := q.(queue := q.queue + [Entry(q.nextId, key, cost)], nextId := q.nextId + 1);
      assert Waits(more.queue, keys) by { AddWaits(q.queue, Entry(q.nextId, key, cost), keys); }
      DrainKeys(more, keys);
    case WaitTimeout(e) =>
      RemoveWaits(q.queue, e, keys);
      var gone := q.(queue := Remove(q.queue, e), timeouts := if q.isShutdown then q.timeouts + 1 else q.timeouts);
      DrainKeys(gone, keys);
      DrainKeys(gone.(timer := false, processing := false), keys);
    case Retry => DrainKeys(q.(timer := false, processing := false), keys);
    case Reply(c, res) =>
      if q.queue != [] {
        TailWaits(q.queue, keys);
        DrainKeys(q.(queue := q.queue[1..], frames := q.frames - {c}), keys);
      }
    case UndoDone(c) => DrainKeys(q.(frames := q.frames - {c}), keys);
    case Clear =>
      RejectAllInert(q.queue, QueueCleared);
      NobodyWaits(keys);
    case Shutdown(ms) => PollKeys(q.(timeouts := 0, isShutdown := true), |q.queue|, Polls(ms), keys);
    case PollTick => PollKeys(q, q.ctl.waiting, Max(0, q.ctl.pollsLeft - 1), keys);
  }

  lemma AddWaits(queue: seq<Entry>, e: Entry, keys: set<Key>)
    requires Waits(queue, keys) && e.key in keys
    ensures Waits(queue + [e], keys)
  {
  }

  lemma TailWaits(queue: seq<Entry>, keys: set<Key>)
    requires Waits(queue, keys) && queue != []
    ensures Waits(queue[1..], keys)
  {
  }

  lemma NobodyWaits(keys: set<Key>)
    ensures Waits([], keys)
  {
  }

  lemma {:induction false} DoAllHolds(cfg: Settings, lim: Limits, s: Side, xs: seq<Effect>, now: int, keys: set<Key>)
    requires Fits(cfg, lim) && Ok(lim, s.mem) && Holds(s.mem, keys) && Roomy(lim, keys) && ChargesOf(xs, keys)
    ensures Holds(DoAll(cfg, lim, s, xs, now).mem, keys)
  {
    hide Ok, Holds, IncrementKey, DecrementKey;
    if xs != [] {
      var init, x := xs[..|xs| - 1], xs[|xs| - 1];
      DoAllHolds(cfg, lim, s, init, now, keys);
      var m := DoAll(cfg, lim, s, init, now).mem;
      if x.Charge? {
        IncrementHolds(lim, m, x.key, Some(cfg.maxRequests), CostOf(x.cost), keys, now);
      } else if x.Undo? {
        DecrementHolds(lim, m, x.key, CostOf(x.cost), x.removeNewest, keys);
      }
    }
  }

  lemma {:induction false} PlayHolds(cfg: Settings, lim: Limits, start: int, moves: seq<Move>, keys: set<Key>)
    requires Fits(cfg, lim) && Roomy(lim, keys) && KeysOf(moves) <= keys
    ensures Holds(Play(cfg, lim, start, moves).side.mem, keys) && Waits(Play(cfg, lim, start, moves).q.queue, keys)
  {
    hide Ok, Step, DoAll, Purge, Holds;
    if moves == [] {
      assert Holds(EMPTY, keys) by { EmptyHolds(keys); }
    } else {
      PlayHolds(cfg, lim, start, moves[..|moves| - 1], keys);
      var w, mv := Play(cfg, lim, start, moves[..|moves| - 1]), moves[|moves| - 1];
      if CanMove(cfg, w, mv) {
        if mv.StorePurge? {
          PurgeHolds(lim, w.side.mem, keys, mv.now);
        } else {
          StepKeys(cfg, w.q, mv.ev, keys);
          DoAllHolds(cfg, lim, w.side, Step(cfg, w.q, mv.ev).1, mv.now, keys);
        }
      }
    }
  }

  lemma EmptyHolds(keys: set<Key>)
    ensures Holds(EMPTY, keys)
  {
  }

  /**
   A run that requests no more keys than the store may hold, in particular a single-key queue on any store, evicts no
   live key.
   */
  lemma FewKeysUndisturbed(cfg: Settings, lim: Limits, start: int, moves: seq<Move>, k: Key)
    requires Fits(cfg, lim) && Roomy(lim, KeysOf(moves))
    ensures Undisturbed(cfg, lim, start, moves, k) <==> ClearsApart(cfg, lim, start, moves)
  {
    hide Play, Ok;
    PlayHolds(cfg, lim, start, moves, KeysOf(moves));
  }

  /** So there the bound needs nothing of the store's record. */
  lemma ReleasedWithinCapFewKeys(cfg: Settings, lim: Limits, start: int, moves: seq<Move>, k: Key, last: int)
    requires Fits(cfg, lim) && Roomy(lim, KeysOf(moves)) && ClearsApart(cfg, lim, start, moves)
    ensures InWindow(Released(Play(cfg, lim, start, moves).side.released, k), lim.strategy.windowMs, last)
            <= cfg.maxRequests
  {
    hide Play, Ok, InWindow, Released;
    FewKeysUndisturbed(cfg, lim, start, moves, k);
    ReleasedWithinCap(cfg, lim, start, moves, k, last);
  }
}
