/**
 The cluster protocol over every interleaving: each call settles exactly once, and all workers
 together obey the window of the one store they share.
 */
module ClusterQuota {
  import opened Entries
  import opened MemoryTable
  import opened ClusterSpec
  import opened ClusterRuns
  import opened FewKeys
  import SlidingRuns

  // ----- each call settles once ----------------------------------------------------------

  ghost function Settles(log: seq<Settlement>, id: nat): (n: nat) {
    if log == [] then 0 else Settles(log[..|log| - 1], id) + if log[|log| - 1].id == id then 1 else 0
  }

  lemma SettlesSnoc(log: seq<Settlement>, x: Settlement, id: nat)
    ensures Settles(log + [x], id) == Settles(log, id) + if x.id == id then 1 else 0
  {
    assert (log + [x])[..|log|] == log;
  }

  ghost predicate IsPending(s: Sys, id: nat) {
    id in s.owner && s.owner[id] in s.workers && id in s.workers[s.owner[id]].pending
  }

  ghost predicate OwnsAll(s: Sys, w: nat, pending: map<nat, Pending>) {
    forall id :: id in pending ==> id in s.owner && s.owner[id] == w
  }

  /** A call waits only at the worker that made it. */
  ghost predicate Owned(s: Sys) {
    && (forall w :: w in s.workers ==> OwnsAll(s, w, s.workers[w].pending))
    && (forall id :: id in s.owner ==> id < s.nextId && s.owner[id] in s.workers)
  }

  /** A call that was made is waiting or has settled once, never both; one that was not made is neither. */
  ghost predicate Balanced(s: Sys, id: nat) {
    Settles(s.settled, id) + (if IsPending(s, id) then 1 else 0) == if id < s.nextId then 1 else 0
  }

  lemma DeliverBalanced(s: Sys, w: nat, reply: Reply, id: nat)
    requires w in s.workers && Owned(s) && Balanced(s, id)
    ensures var (wk, x) := Received(s.workers[w], reply);
            var r := s.(workers := s.workers[w := wk], settled := if x.Some? then s.settled + [x.value] else s.settled);
            Owned(r) && Balanced(r, id)
  {
    hide Received, Settles;
    var (wk, x) := Received(s.workers[w], reply);
    ReceivedShape(s.workers[w], reply);
    assert OwnsAll(s, w, s.workers[w].pending);
    var r := s.(workers := s.workers[w := wk], settled := if x.Some? then s.settled + [x.value] else s.settled);
    PendingChanges(s, r, w);
    if x.Some? {
      SettlesSnoc(s.settled, x.value, id);
    }
    hide OwnsAll, Owned;
  }

  lemma ReceivedShape(wk: Worker, reply: Reply)
    ensures var (next, x) := Received(wk, reply);
            && (x.Some? ==> x.value.id in wk.pending && next.pending == wk.pending - {x.value.id})
            && (x.None? ==> next.pending == wk.pending)
  {
  }

  lemma StepBalanced(s: Sys, ev: Event, id: nat)
    requires ShopsOk(s.stores) && Enabled(s, ev) && Owned(s) && Balanced(s, id)
    ensures Owned(Step(s, ev)) && Balanced(Step(s, ev), id)
  {
    hide Ok, Apply, Settles, Served, Handled, Received;
    var r := Step(s, ev);
    match ev
    case Deliver(w, reply) => DeliverBalanced(s, w, reply, id);
    case Timeout(w, x) => TimeoutBalanced(s, w, x, id);
    case Invoke(w, body) => InvokeBalanced(s, w, body, id);
    case Spawn(w, _, _, _) => PendingChanges(s, r, w);
    case InitTimeout(w) => PendingChanges(s, r, w);
    case _ => PendingChanges(s, r, 0);
  }

  lemma TimeoutBalanced(s: Sys, w: nat, x: nat, id: nat)
    requires ShopsOk(s.stores) && Enabled(s, Timeout(w, x)) && Owned(s) && Balanced(s, id)
    ensures Owned(Step(s, Timeout(w, x))) && Balanced(Step(s, Timeout(w, x)), id)
  {
    hide Ok, Apply, Settles;
    SettlesSnoc(s.settled, Settlement(x, Rejected), id);
    assert OwnsAll(s, w, s.workers[w].pending);
    PendingChanges(s, Step(s, Timeout(w, x)), w);
  }

  lemma InvokeBalanced(s: Sys, w: nat, body: Body, id: nat)
    requires ShopsOk(s.stores) && Enabled(s, Invoke(w, body)) && Owned(s) && Balanced(s, id)
    ensures Owned(Step(s, Invoke(w, body))) && Balanced(Step(s, Invoke(w, body)), id)
  {
    hide Ok, Apply, Settles;
    assert OwnsAll(s, w, s.workers[w].pending);
    InvokeOwned(s, w, body);
  }

  lemma InvokeOwned(s: Sys, w: nat, body: Body)
    requires ShopsOk(s.stores) && Enabled(s, Invoke(w, body)) && Owned(s)
    ensures Owned(Step(s, Invoke(w, body)))
  {
    hide Ok;
    var r := Step(s, Invoke(w, body));
    forall v | v in r.workers ensures OwnsAll(r, v, r.workers[v].pending) {
      assert OwnsAll(s, v, s.workers[v].pending);
    }
  }

  lemma PendingChanges(s: Sys, r: Sys, w: nat)
    requires Owned(s) && r.owner == s.owner && r.nextId == s.nextId
    requires forall v :: v in s.workers ==> v in r.workers && (v != w ==> r.workers[v] == s.workers[v])
    requires forall v :: v in r.workers ==> v in s.workers || r.workers[v].pending == map[]
    requires w in s.workers ==> r.workers[w].pending.Keys <= s.workers[w].pending.Keys
    ensures Owned(r)
  {
    forall v | v in r.workers ensures OwnsAll(r, v, r.workers[v].pending) {
      assert v in s.workers ==> OwnsAll(s, v, s.workers[v].pending);
    }
  }

  /** In every interleaving, each call settles at most once, and exactly once as soon as it no longer waits. */
  lemma {:induction false} EachCallSettlesOnce(start: int, evs: seq<Event>, id: nat)
    ensures Owned(ClusterSpec.Exec(start, evs)) && Balanced(ClusterSpec.Exec(start, evs), id)
  {
    if evs != [] {
      hide Step, Enabled, Owned, Balanced, ShopsOk;
      EachCallSettlesOnce(start, evs[..|evs| - 1], id);
      var prev := ClusterSpec.Exec(start, evs[..|evs| - 1]);
      if Enabled(prev, evs[|evs| - 1]) {
        StepBalanced(prev, evs[|evs| - 1], id);
      }
    }
  }

  // ----- the primary's clock ------------------------------------------------------------------

  /** The operations are in clock order, none later than `clock`. */
  ghost predicate Stamped(history: seq<Entry>, clock: int) {
    Forward(Ops(history), clock)
  }

  lemma {:induction false} StampedLater(history: seq<Entry>, clock: int, later: int)
    requires Stamped(history, clock) && clock <= later
    ensures Stamped(history, later)
  {
    if history != [] && TimeOf(history[|history| - 1].op).None? {
      StampedLater(history[..|history| - 1], clock, later);
    }
  }

  lemma StampedSnoc(history: seq<Entry>, clock: int, e: Entry)
    requires Stamped(history, clock) && (TimeOf(e.op).Some? ==> TimeOf(e.op).value == clock)
    ensures Stamped(history + [e], clock)
  {
    assert (history + [e])[..|history|] == history;
    assert Ops(history + [e])[..|history|] == Ops(history);
  }

  ghost predicate AllStamped(s: Sys) {
    forall p :: p in s.stores ==> Stamped(s.stores[p].history, s.clock)
  }

  lemma StepStamped(s: Sys, ev: Event)
    requires ShopsOk(s.stores) && Enabled(s, ev) && AllStamped(s)
    ensures AllStamped(Step(s, ev))
  {
    hide Ok, Apply, Served, Stamped, Received;
    if ev.Dispatch? || ev.StorePurge? {
      forall p | p in s.stores ensures Stamped(s.stores[p].history, ev.now) {
        StampedLater(s.stores[p].history, s.clock, ev.now);
      }
    }
    if ev.StorePurge? {
      ServedShape(s.stores[ev.prefix], PurgeTick(ev.now), None);
      StampedSnoc(s.stores[ev.prefix].history, ev.now, Entry(PurgeTick(ev.now), None));
    } else if ev.Dispatch? {
      DispatchStamped(s, ev.request, ev.now);
    }
  }

  lemma DispatchStamped(s: Sys, req: Request, now: int)
    requires ShopsOk(s.stores) && forall p :: p in s.stores ==> Stamped(s.stores[p].history, now)
    ensures AllStamped(AfterDispatch(s, req, now))
  {
    hide Ok, Apply, Served, Stamped;
    assert Stamped([], now) by { EmptyStamped(now); }
    if req.Call? && req.prefix in s.stores {
      ServedShape(s.stores[req.prefix], OpOf(req.body, now), Some(req.id));
      StampedSnoc(s.stores[req.prefix].history, now, Entry(OpOf(req.body, now), Some(req.id)));
    }
  }

  lemma EmptyStamped(clock: int)
    ensures Stamped([], clock)
  {
  }

  lemma {:induction false} RunStamped(start: int, evs: seq<Event>)
    ensures AllStamped(ClusterSpec.Exec(start, evs))
  {
    if evs != [] {
      hide Step, Enabled, AllStamped, ShopsOk;
      RunStamped(start, evs[..|evs| - 1]);
      var prev := ClusterSpec.Exec(start, evs[..|evs| - 1]);
      if Enabled(prev, evs[|evs| - 1]) {
        StepStamped(prev, evs[|evs| - 1]);
      }
    }
  }

  // ----- one window for all workers ----------------------------------------------------------------

  /** Some worker was told that this call is allowed. */
  ghost predicate Accepted(s: Sys, id: nat) {
    exists res :: Settlement(id, Resolved(Some(res))) in s.settled && !res.isBlocked
  }

  /**
   Cost of the accepted calls for a key that the primary charged in (last - windowMs, last], over the first `n`
   operations.
   */
  ghost function AcceptedIn(s: Sys, history: seq<Entry>, k: Key, windowMs: int, last: int): (n: nat) {
    if history == [] then 0
    else
      AcceptedIn(s, history[..|history| - 1], k, windowMs, last)
      + AcceptedCost(s, history[|history| - 1], k, windowMs, last)
  }

  ghost function AcceptedCost(s: Sys, e: Entry, k: Key, windowMs: int, last: int): (n: nat) {
    if Charges(e.op, k, windowMs, last) && e.id.Some? && Accepted(s, e.id.value) then CostOf(e.op.cost) else 0
  }

  /** An increment of the key within the window. */
  predicate Charges(op: StoreOp, k: Key, windowMs: int, last: int) {
    op.Inc? && op.key == k && last - windowMs < op.now <= last
  }

  /** A call that was accepted was admitted at its place. */
  lemma AcceptedWasAdmitted(s: Sys, p: Prefix, i: nat)
    requires AllBacked(s) && OnePlaceEach(s) && p in s.stores && i < |s.stores[p].history|
    requires s.stores[p].history[i].id.Some? && Accepted(s, s.stores[p].history[i].id.value)
    ensures var shop := s.stores[p];
            shop.lim.strategy.Valid() && SerialResult(shop.lim, shop.history, i).Some?
              && !SerialResult(shop.lim, shop.history, i).value.isBlocked
  {
    hide SerialResult;
    var id := s.stores[p].history[i].id.value;
    var res :| Settlement(id, Resolved(Some(res))) in s.settled && !res.isBlocked;
    assert SettlementBacked(s, Settlement(id, Resolved(Some(res))));
    assert PlacedShop(s, p, s.stores[p].history);
    assert PlacedAt(s, p, i, id);
  }

  lemma {:induction false} AcceptedWithinAdmitted(s: Sys, p: Prefix, n: nat, k: Key, last: int)
    requires AllBacked(s) && OnePlaceEach(s) && p in s.stores && n <= |s.stores[p].history|
    requires s.stores[p].lim.strategy.Valid() && s.stores[p].lim.strategy.SlidingWindow?
    ensures var (lim, part) := (s.stores[p].lim, s.stores[p].history[..n]);
            AcceptedIn(s, part, k, lim.strategy.windowMs, last)
            <= SlidingRuns.AdmittedIn(SlidingRuns.Charges(lim, Ops(part)), k, lim.strategy.windowMs, last)
  {
    hide AllBacked, OnePlaceEach, SlidingRuns.AdmittedIn, SlidingRuns.Charges, AcceptedCost, Ok, Ops;
    var (shop, history) := (s.stores[p], s.stores[p].history);
    if n > 0 {
      AcceptedWithinAdmitted(s, p, n - 1, k, last);
      assert history[..n][..n - 1] == history[..n - 1];
      AdmittedAt(shop.lim, history, n - 1, k, last);
      AcceptedCostAdmitted(s, p, n - 1, k, last);
    }
  }

  lemma AcceptedCostAdmitted(s: Sys, p: Prefix, i: nat, k: Key, last: int)
    requires AllBacked(s) && OnePlaceEach(s) && p in s.stores && i < |s.stores[p].history|
    requires s.stores[p].lim.strategy.Valid() && s.stores[p].lim.strategy.SlidingWindow?
    ensures var (lim, history) := (s.stores[p].lim, s.stores[p].history);
            AcceptedCost(s, history[i], k, lim.strategy.windowMs, last) <= AdmittedCost(lim, history, i, k, last)
  {
    hide AllBacked, OnePlaceEach, SerialResult, Accepted, Ok;
    var e := s.stores[p].history[i];
    if e.id.Some? && Accepted(s, e.id.value) {
      AcceptedWasAdmitted(s, p, i);
    }
  }

  ghost function AdmittedCost(lim: Limits, history: seq<Entry>, i: nat, k: Key, last: int): (n: nat)
    requires lim.strategy.Valid() && lim.strategy.SlidingWindow? && i < |history|
  {
    if Charges(history[i].op, k, lim.strategy.windowMs, last)
      && SerialResult(lim, history, i).Some? && !SerialResult(lim, history, i).value.isBlocked
    then CostOf(history[i].op.cost)
    else 0
  }

  lemma AdmittedAt(lim: Limits, history: seq<Entry>, i: nat, k: Key, last: int)
    requires lim.strategy.Valid() && lim.strategy.SlidingWindow? && i < |history|
    ensures var w := lim.strategy.windowMs;
            SlidingRuns.AdmittedIn(SlidingRuns.Charges(lim, Ops(history[..i + 1])), k, w, last)
            >= SlidingRuns.AdmittedIn(SlidingRuns.Charges(lim, Ops(history[..i])), k, w, last)
               + AdmittedCost(lim, history, i, k, last)
  {
    hide Ok, Apply, SlidingRuns.AdmittedIn;
    var (ops, op) := (Ops(history[..i]), history[i].op);
    assert history[..i + 1][..i] == history[..i];
    assert Ops(history[..i + 1]) == ops + [op];
    assert (ops + [op])[..|ops|] == ops;
    var log := SlidingRuns.Charges(lim, ops);
    if op.Inc? {
      SlidingRuns.AdmittedSnoc(log, SlidingRuns.Charged(lim, MemoryTable.Exec(lim, ops), op)[0], k,
        lim.strategy.windowMs, last);
    } else {
      assert log + [] == log;
    }
  }

  /**
   All workers together: whatever they do to other keys, as long as they give nothing of this key back and
   the store does not evict it live, the cost accepted for it in any window is within the cap.
   */
  lemma WorkersShareOneWindow(start: int, evs: seq<Event>, p: Prefix, k: Key, last: int, cap: int)
    requires p in ClusterSpec.Exec(start, evs).stores && cap >= 0
    requires var shop := ClusterSpec.Exec(start, evs).stores[p];
             && shop.lim.strategy.SlidingWindow? && Spared(shop.mem, k)
             && SlidingRuns.AllTake(Ops(shop.history), k) && SlidingRuns.HeldTo(shop.lim, Ops(shop.history), k, cap)
    ensures var s := ClusterSpec.Exec(start, evs);
            AcceptedIn(s, s.stores[p].history, k, s.stores[p].lim.strategy.windowMs, last) <= cap
  {
    hide ClusterSpec.Exec, AllBacked, OnePlaceEach, AcceptedIn, Ok, ShopsOk, Ops, Forward, Spared, MemoryTable.Exec;
    hide SlidingRuns.AdmittedIn, SlidingRuns.Charges, SlidingRuns.AllTake, SlidingRuns.HeldTo;
    var s := ClusterSpec.Exec(start, evs);
    var shop := s.stores[p];
    RunSerial(start, evs);
    RunPlaces(start, evs);
    RunStamped(start, evs);
    assert shop.history[..|shop.history|] == shop.history;
    AcceptedWithinAdmitted(s, p, |shop.history|, k, last);
    SlidingRuns.AdmittedWithinCap(shop.lim, Ops(shop.history), k, s.clock, last, cap);
  }

  /** With no more keys than the primary's stores hold, the key cannot be evicted live. */
  lemma WorkersShareOneWindowFewKeys(start: int, evs: seq<Event>, p: Prefix, keys: set<Key>, k: Key, last: int,
      cap: int)
    requires p in ClusterSpec.Exec(start, evs).stores && cap >= 0
    requires var shop := ClusterSpec.Exec(start, evs).stores[p];
             && shop.lim.strategy.SlidingWindow? && Roomy(shop.lim, keys) && KeysWithin(Ops(shop.history), keys)
             && SlidingRuns.AllTake(Ops(shop.history), k) && SlidingRuns.HeldTo(shop.lim, Ops(shop.history), k, cap)
    ensures var s := ClusterSpec.Exec(start, evs);
            AcceptedIn(s, s.stores[p].history, k, s.stores[p].lim.strategy.windowMs, last) <= cap
  {
    hide ClusterSpec.Exec, AllBacked, AcceptedIn, Ok, ShopsOk, Ops, MemoryTable.Exec, Roomy, KeysWithin;
    hide SlidingRuns.AllTake, SlidingRuns.HeldTo;
    RunSerial(start, evs);
    var shop := ClusterSpec.Exec(start, evs).stores[p];
    RunHolds(shop.lim, Ops(shop.history), keys);
    WorkersShareOneWindow(start, evs, p, k, last, cap);
  }
}
