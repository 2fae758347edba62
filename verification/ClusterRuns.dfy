/**
 The cluster protocol over every interleaving: what a worker is told is what one serial run
 of the primary's store answers, and counters survive every init.
 */
module ClusterRuns {
  import opened Entries
  import opened MemoryTable
  import opened ClusterSpec

  // ----- serial runs --------------------------------------------------------------------

  ghost function Ops(history: seq<Entry>): (ops: seq<StoreOp>)
    ensures |ops| == |history|
  {
    if history == [] then [] else Ops(history[..|history| - 1]) + [history[|history| - 1].op]
  }

  /** The store is what its recorded operations make of an empty one, in that order. */
  ghost predicate Serial(shop: Shop) {
    shop.lim.strategy.Valid() && shop.mem == MemoryTable.Exec(shop.lim, Ops(shop.history))
  }

  /** What the serial run answers at position `i`. */
  ghost function SerialResult(lim: Limits, history: seq<Entry>, i: nat): (r: Option<Result>)
    requires lim.strategy.Valid() && i < |history|
  {
    Apply(lim, MemoryTable.Exec(lim, Ops(history[..i])), history[i].op).1
  }

  lemma ServedSerial(shop: Shop, op: StoreOp, id: Option<nat>)
    requires Ok(shop.lim, shop.mem) && Serial(shop)
    ensures Serial(Served(shop, op, id).0)
    ensures SerialResult(shop.lim, Served(shop, op, id).0.history, |shop.history|) == Served(shop, op, id).1
  {
    hide Ok, Apply;
    var history := shop.history + [Entry(op, id)];
    assert history[..|shop.history|] == shop.history;
    assert Ops(history) == Ops(shop.history) + [op];
    assert Ops(history)[..|Ops(history)| - 1] == Ops(shop.history);
  }

  // ----- the record only grows --------------------------------------------------------------

  ghost predicate ShopGrows(a: Shop, b: Shop) {
    a.lim == b.lim && a.history <= b.history
  }

  ghost predicate Grows(s: Sys, r: Sys) {
    && (forall p :: p in s.stores ==> p in r.stores && ShopGrows(s.stores[p], r.stores[p]))
    && (forall id :: id in s.places ==> id in r.places && r.places[id] == s.places[id])
    && (forall id :: id in s.sent ==> id in r.sent && r.sent[id] == s.sent[id])
    && s.settled <= r.settled
  }

  /** A call that waits in the primary has been sent and has no place yet. */
  ghost predicate Fresh(s: Sys, req: Request) {
    req.Call? ==> req.id in s.sent && s.sent[req.id] == req && req.id !in s.places && req.id < s.nextId
  }

  ghost predicate AllFresh(s: Sys) {
    && (forall req :: req in s.requests ==> Fresh(s, req))
    && (forall id :: id in s.sent ==> id < s.nextId && s.sent[id].Call? && s.sent[id].id == id)
    && (forall id :: id in s.places ==> id < s.nextId)
  }

  lemma StepGrows(s: Sys, ev: Event)
    requires ShopsOk(s.stores) && Enabled(s, ev) && AllFresh(s)
    ensures Grows(s, Step(s, ev)) && AllFresh(Step(s, ev))
  {
    hide Ok, Apply, Received;
    if ev.Dispatch? {
      DispatchGrows(s, ev.request, ev.now);
    }
    hide AfterDispatch;
  }

  lemma DispatchGrows(s: Sys, req: Request, now: int)
    requires ShopsOk(s.stores) && AllFresh(s) && req in s.requests
    ensures Grows(s, AfterDispatch(s, req, now)) && AllFresh(AfterDispatch(s, req, now))
  {
    hide Ok, Apply;
    assert Fresh(s, req);
    var r := AfterDispatch(s, req, now);
    forall x | x in r.requests ensures Fresh(r, x) {
      assert Fresh(s, x);
    }
  }

  lemma {:induction false} RunFresh(start: int, evs: seq<Event>)
    ensures AllFresh(ClusterSpec.Exec(start, evs))
  {
    if evs != [] {
      hide Step, AllFresh, Enabled, ShopsOk;
      RunFresh(start, evs[..|evs| - 1]);
      var prev := ClusterSpec.Exec(start, evs[..|evs| - 1]);
      if Enabled(prev, evs[|evs| - 1]) {
        StepGrows(prev, evs[|evs| - 1]);
      }
    } else {
      assert AllFresh(ClusterSpec.Exec(start, []));
    }
  }

  lemma GrowsTrans(a: Sys, b: Sys, c: Sys)
    requires Grows(a, b) && Grows(b, c)
    ensures Grows(a, c)
  {
  }

  /** Over any stretch of a run, inits included, no store is replaced and nothing it served is forgotten. */
  lemma {:induction false} NothingIsReset(start: int, evs: seq<Event>, n: nat)
    requires n <= |evs|
    ensures Grows(ClusterSpec.Exec(start, evs[..n]), ClusterSpec.Exec(start, evs))
  {
    if n == |evs| {
      assert evs[..n] == evs;
    } else {
      hide Step, AllFresh, Enabled, Grows, ShopsOk;
      var init := evs[..|evs| - 1];
      assert init[..n] == evs[..n];
      NothingIsReset(start, init, n);
      RunFresh(start, init);
      if Enabled(ClusterSpec.Exec(start, init), evs[|evs| - 1]) {
        StepGrows(ClusterSpec.Exec(start, init), evs[|evs| - 1]);
        GrowsTrans(ClusterSpec.Exec(start, evs[..n]), ClusterSpec.Exec(start, init), ClusterSpec.Exec(start, evs));
      }
    }
  }

  // ----- every answer is a serial answer ---------------------------------------------------------

  ghost predicate Carries(op: StoreOp, body: Body) {
    op.Inc? && body.Increment? && op.key == body.key && op.override == body.override && op.cost == body.cost
  }

  /** Position `i` of the store's record is this call, and `res` is what the serial run answers there. */
  ghost predicate Answers(shop: Shop, i: nat, req: Request, res: Result) {
    && shop.lim.strategy.Valid() && i < |shop.history| && req.Call?
    && shop.history[i].id == Some(req.id) && Carries(shop.history[i].op, req.body)
    && SerialResult(shop.lim, shop.history, i) == Some(res)
  }

  ghost predicate Backed(s: Sys, id: nat, p: Prefix, res: Result) {
    && id in s.sent && s.sent[id].Call? && s.sent[id].prefix == p && p in s.stores && id in s.places
    && Answers(s.stores[p], s.places[id], s.sent[id], res)
  }

  ghost predicate ReplyBacked(s: Sys, r: Reply) {
    r.Success? ==> Backed(s, r.id, r.prefix, r.result)
  }

  ghost predicate SettlementBacked(s: Sys, x: Settlement) {
    x.outcome.Resolved? && x.outcome.result.Some? ==>
      x.id in s.sent && Backed(s, x.id, s.sent[x.id].prefix, x.outcome.result.value)
  }

  ghost predicate AllSerial(s: Sys) {
    forall p :: p in s.stores ==> Serial(s.stores[p])
  }

  ghost predicate AllBacked(s: Sys) {
    && (forall r :: r in s.replies ==> ReplyBacked(s, r))
    && (s.active.Some? ==> ReplyBacked(s, s.active.value))
    && (forall x :: x in s.settled ==> SettlementBacked(s, x))
  }

  lemma SerialResultStable(lim: Limits, a: seq<Entry>, b: seq<Entry>, i: nat)
    requires lim.strategy.Valid() && i < |a| && a <= b
    ensures SerialResult(lim, a, i) == SerialResult(lim, b, i)
  {
    hide Ok, Apply;
    assert a[..i] == b[..i];
  }

  lemma BackedStable(s: Sys, r: Sys, id: nat, p: Prefix, res: Result)
    requires Backed(s, id, p, res) && Grows(s, r)
    ensures Backed(r, id, p, res)
  {
    hide SerialResult;
    SerialResultStable(s.stores[p].lim, s.stores[p].history, r.stores[p].history, s.places[id]);
  }

  lemma BackedAcross(s: Sys, r: Sys)
    requires AllBacked(s) && Grows(s, r)
    ensures forall x :: x in s.replies ==> ReplyBacked(r, x)
    ensures s.active.Some? ==> ReplyBacked(r, s.active.value)
    ensures forall x :: x in s.settled ==> SettlementBacked(r, x)
  {
    hide Answers;
    forall x | x in s.replies ensures ReplyBacked(r, x) {
      assert ReplyBacked(s, x);
      if x.Success? {
        BackedStable(s, r, x.id, x.prefix, x.result);
      }
    }
    if s.active.Some? && s.active.value.Success? {
      var x := s.active.value;
      BackedStable(s, r, x.id, x.prefix, x.result);
    }
    forall x | x in s.settled ensures SettlementBacked(r, x) {
      assert SettlementBacked(s, x);
      if x.outcome.Resolved? && x.outcome.result.Some? {
        BackedStable(s, r, x.id, s.sent[x.id].prefix, x.outcome.result.value);
      }
    }
  }

  lemma DispatchSerial(s: Sys, req: Request, now: int)
    requires ShopsOk(s.stores) && AllFresh(s) && AllSerial(s) && req in s.requests
    ensures AllSerial(AfterDispatch(s, req, now))
    ensures var r := AfterDispatch(s, req, now); r.active.Some? ==> ReplyBacked(r, r.active.value)
  {
    hide Ok, Apply, Serial, SerialResult, Served;
    assert Fresh(s, req);
    if req.Call? && req.prefix in s.stores {
      hide ReplyBacked, Backed;
      var shop := s.stores[req.prefix];
      ServedSerial(shop, OpOf(req.body, now), Some(req.id));
      CallBacked(s, req, now);
    } else if req.Init? && req.strategy.Valid() {
      NewShopSerial(Limits(req.strategy, PRIMARY_MAX_KEYS));
    }
  }

  lemma CallBacked(s: Sys, req: Request, now: int)
    requires ShopsOk(s.stores) && req.Call? && req.prefix in s.stores && Serial(s.stores[req.prefix]) && Fresh(s, req)
    ensures var r := AfterDispatch(s, req, now); r.active.Some? ==> ReplyBacked(r, r.active.value)
  {
    hide Ok, Apply, Serial, SerialResult, Served;
    var shop := s.stores[req.prefix];
    ServedSerial(shop, OpOf(req.body, now), Some(req.id));
    ServedShape(shop, OpOf(req.body, now), Some(req.id));
    SerialValid(shop);
  }

  lemma NewShopSerial(lim: Limits)
    requires lim.strategy.Valid()
    ensures Serial(Shop(lim, EMPTY, []))
  {
    assert MemoryTable.Exec(lim, []) == EMPTY;
  }

  lemma SerialValid(shop: Shop)
    requires Serial(shop)
    ensures shop.lim.strategy.Valid()
  {
  }

  lemma ServedShape(shop: Shop, op: StoreOp, id: Option<nat>)
    requires Ok(shop.lim, shop.mem)
    ensures var r := Served(shop, op, id).0; r.lim == shop.lim && r.history == shop.history + [Entry(op, id)]
    ensures op.Inc? ==> Served(shop, op, id).1.Some?
  {
    hide Ok, IncrementKey, GetKey, Purge;
  }

  lemma StepSerial(s: Sys, ev: Event)
    requires ShopsOk(s.stores) && Enabled(s, ev) && AllFresh(s) && AllSerial(s) && AllBacked(s)
    ensures AllSerial(Step(s, ev)) && AllBacked(Step(s, ev))
  {
    hide Ok, Apply, Serial, ReplyBacked, SettlementBacked, AllFresh, Grows, AfterDispatch, Served, Received;
    var r := Step(s, ev);
    StepGrows(s, ev);
    BackedAcross(s, r);
    match ev
    case Dispatch(req, now) =>
      DispatchSerial(s, req, now);
      DispatchRest(s, req, now);
    case StorePurge(p, now) => ServedSerial(s.stores[p], PurgeTick(now), None);
    case Deliver(w, reply) => DeliverBacked(s, w, reply);
    case Timeout(w, id) => RejectedBacked(r, id);
    case _ =>
  }

  lemma DispatchRest(s: Sys, req: Request, now: int)
    requires ShopsOk(s.stores)
    ensures var r := AfterDispatch(s, req, now); r.replies == s.replies && r.settled == s.settled
  {
    hide Ok, Handled;
  }

  lemma RejectedBacked(s: Sys, id: nat)
    ensures SettlementBacked(s, Settlement(id, Rejected))
  {
  }

  lemma DeliverBacked(s: Sys, w: nat, reply: Reply)
    requires w in s.workers && ReplyBacked(s, reply)
    ensures var x := Received(s.workers[w], reply).1;
            x.Some? ==> forall t: Sys :: t.sent == s.sent && t.stores == s.stores && t.places == s.places ==>
              SettlementBacked(t, x.value)
  {
    hide Answers;
  }

  lemma {:induction false} RunSerial(start: int, evs: seq<Event>)
    ensures AllSerial(ClusterSpec.Exec(start, evs)) && AllBacked(ClusterSpec.Exec(start, evs))
  {
    if evs != [] {
      hide Step, AllFresh, Enabled, AllSerial, AllBacked, ShopsOk;
      RunSerial(start, evs[..|evs| - 1]);
      RunFresh(start, evs[..|evs| - 1]);
      var prev := ClusterSpec.Exec(start, evs[..|evs| - 1]);
      if Enabled(prev, evs[|evs| - 1]) {
        StepSerial(prev, evs[|evs| - 1]);
      }
    }
  }

  // ----- one place per call ----------------------------------------------------------------------

  ghost predicate PlacedAt(s: Sys, p: Prefix, i: nat, id: nat) {
    id in s.places && s.places[id] == i && id in s.sent && s.sent[id].Call? && s.sent[id].prefix == p
  }

  ghost predicate PlacedShop(s: Sys, p: Prefix, history: seq<Entry>) {
    forall i :: 0 <= i < |history| && history[i].id.Some? ==> PlacedAt(s, p, i, history[i].id.value)
  }

  /** Every recorded operation of a call stands at that call's one place. */
  ghost predicate OnePlaceEach(s: Sys) {
    forall p :: p in s.stores ==> PlacedShop(s, p, s.stores[p].history)
  }

  lemma PlacedShopStable(s: Sys, r: Sys, p: Prefix, history: seq<Entry>)
    requires PlacedShop(s, p, history) && Grows(s, r)
    ensures PlacedShop(r, p, history)
  {
    forall i | 0 <= i < |history| && history[i].id.Some? ensures PlacedAt(r, p, i, history[i].id.value) {
      assert PlacedAt(s, p, i, history[i].id.value);
    }
  }

  lemma PlacedShopSnoc(s: Sys, p: Prefix, history: seq<Entry>, e: Entry)
    requires PlacedShop(s, p, history) && (e.id.Some? ==> PlacedAt(s, p, |history|, e.id.value))
    ensures PlacedShop(s, p, history + [e])
  {
  }

  lemma StepPlaces(s: Sys, ev: Event)
    requires ShopsOk(s.stores) && Enabled(s, ev) && AllFresh(s) && OnePlaceEach(s)
    ensures OnePlaceEach(Step(s, ev))
  {
    hide Ok, Apply, PlacedShop, Served, Received, Grows, AllFresh;
    var r := Step(s, ev);
    StepGrows(s, ev);
    forall p | p in s.stores ensures PlacedShop(r, p, s.stores[p].history) {
      PlacedShopStable(s, r, p, s.stores[p].history);
    }
    if ev.Dispatch? {
      DispatchPlaces(s, ev.request, ev.now);
    } else if ev.StorePurge? {
      ServedShape(s.stores[ev.prefix], PurgeTick(ev.now), None);
      PlacedShopSnoc(r, ev.prefix, s.stores[ev.prefix].history, Entry(PurgeTick(ev.now), None));
    }
  }

  lemma DispatchPlaces(s: Sys, req: Request, now: int)
    requires ShopsOk(s.stores) && AllFresh(s) && req in s.requests
    requires forall p :: p in s.stores ==> PlacedShop(AfterDispatch(s, req, now), p, s.stores[p].history)
    ensures OnePlaceEach(AfterDispatch(s, req, now))
  {
    hide Ok, Apply, PlacedShop, Served;
    assert Fresh(s, req);
    var r := AfterDispatch(s, req, now);
    if req.Call? && req.prefix in s.stores {
      var (shop, op) := (s.stores[req.prefix], OpOf(req.body, now));
      ServedShape(shop, op, Some(req.id));
      PlacedShopSnoc(r, req.prefix, shop.history, Entry(op, Some(req.id)));
    } else {
      EmptyPlaced(r, req.prefix);
    }
  }

  lemma EmptyPlaced(s: Sys, p: Prefix)
    ensures PlacedShop(s, p, [])
  {
  }

  lemma {:induction false} RunPlaces(start: int, evs: seq<Event>)
    ensures OnePlaceEach(ClusterSpec.Exec(start, evs))
  {
    if evs != [] {
      hide Step, AllFresh, Enabled, OnePlaceEach, ShopsOk;
      RunPlaces(start, evs[..|evs| - 1]);
      RunFresh(start, evs[..|evs| - 1]);
      var prev := ClusterSpec.Exec(start, evs[..|evs| - 1]);
      if Enabled(prev, evs[|evs| - 1]) {
        StepPlaces(prev, evs[|evs| - 1]);
      }
    }
  }

  /**
   Every result that a worker accepted is the answer of its prefix's store at one position of that store's
   serial run, and no other position of any store belongs to the same call.
   */
  lemma AcceptedIsSerial(start: int, evs: seq<Event>, id: nat, res: Result)
    requires Settlement(id, Resolved(Some(res))) in ClusterSpec.Exec(start, evs).settled
    ensures var s := ClusterSpec.Exec(start, evs);
            && AllSerial(s) && id in s.sent && Backed(s, id, s.sent[id].prefix, res)
            && forall p, i :: p in s.stores && 0 <= i < |s.stores[p].history| && s.stores[p].history[i].id == Some(id)
                              ==> p == s.sent[id].prefix && i == s.places[id]
  {
    hide ClusterSpec.Exec, AllSerial, Backed;
    var s := ClusterSpec.Exec(start, evs);
    RunSerial(start, evs);
    RunPlaces(start, evs);
    assert SettlementBacked(s, Settlement(id, Resolved(Some(res))));
    assert Backed(s, id, s.sent[id].prefix, res) ==> id in s.places by {
      BackedParts(s, id, s.sent[id].prefix, res);
    }
    forall p, i | p in s.stores && 0 <= i < |s.stores[p].history| && s.stores[p].history[i].id == Some(id)
      ensures p == s.sent[id].prefix && i == s.places[id]
    {
      assert PlacedShop(s, p, s.stores[p].history);
    }
  }

  lemma BackedParts(s: Sys, id: nat, p: Prefix, res: Result)
    ensures Backed(s, id, p, res) ==> id in s.places
  {
  }
}
