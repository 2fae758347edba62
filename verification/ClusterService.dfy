/**
 What the cluster protocol does for its workers: which inits are accepted and what they leave
 behind, and that every waiting worker with a usable init can still become ready and be served.
 */
module ClusterService {
  import opened Entries
  import opened MemoryTable
  import opened ClusterSpec
  import opened ClusterRuns

  // ----- the primary's answers ------------------------------------------------------------------

  predicate Supported(version: Option<int>) {
    version == None || version == Some(1)
  }

  /**
   An init is refused exactly when it states a version other than 1. An accepted one finds its prefix served already,
   and changes nothing, or registers an empty store of its strategy. Without either it is not answered.
   */
  lemma InitAnswered(stores: map<Prefix, Shop>, req: Request, now: int)
    requires ShopsOk(stores) && req.Init?
    ensures var (next, reply) := Handled(stores, req, now);
            && (reply == Some(InitNack(req.from, req.prefix)) <==> !Supported(req.version))
            && (reply == Some(InitAck(req.from, req.prefix)) <==>
                  Supported(req.version) && (req.prefix in stores || req.strategy.Valid()))
            && (reply == None <==> Supported(req.version) && req.prefix !in stores && !req.strategy.Valid())
            && next == if Supported(req.version) && req.prefix !in stores && req.strategy.Valid()
                       then stores[req.prefix := Shop(Limits(req.strategy, 100_000), Mem([], map[], []), [])]
                       else stores
  {
    hide Ok;
  }

  /**
   A call on a served prefix runs once on that prefix's store, an increment is answered with its result, and no other
   store is touched. A call on any other prefix fails and changes nothing.
   */
  lemma CallAnswered(stores: map<Prefix, Shop>, req: Request, now: int)
    requires ShopsOk(stores) && req.Call?
    ensures var (next, reply) := Handled(stores, req, now);
            && (req.prefix !in stores ==> next == stores && reply == Some(Failure(req.id, req.prefix)))
            && (req.prefix in stores ==>
                  && next.Keys == stores.Keys
                  && (forall p :: p in stores && p != req.prefix ==> next[p] == stores[p])
                  && Ok(stores[req.prefix].lim, stores[req.prefix].mem)
                  && var (mem, res) := Apply(stores[req.prefix].lim, stores[req.prefix].mem, OpOf(req.body, now));
                     && next[req.prefix].mem == mem
                     && (req.body.Increment? ==> res.Some? && reply == Some(Success(req.id, req.prefix, res.value)))
                     && (!req.body.Increment? ==> reply == Some(Ack(req.id, req.prefix))))
  {
    hide IncrementKey, DecrementKey, ResetKey;
  }

  /** The call that a reply speaks of. */
  function CallOf(reply: Reply): (id: Option<nat>) {
    match reply
    case Success(id, _, _) => Some(id)
    case Failure(id, _) => Some(id)
    case Ack(id, _) => Some(id)
    case _ => None
  }

  /**
   A worker listens to replies for its own prefix until its init has failed. One that speaks of a waiting call ends
   it, but for an acknowledgement where a result is due: with the result, the acknowledgement, or else rejected. Only
   the first answer to its init counts.
   */
  lemma ReplySettlesIff(wk: Worker, reply: Reply)
    ensures var (next, x) := Received(wk, reply);
            var heard := !wk.readiness.InitFailed? && reply.prefix == wk.prefix;
            && (x.Some? <==>
                  && heard && CallOf(reply).Some? && CallOf(reply).value in wk.pending
                  && !(reply.Ack? && wk.pending[CallOf(reply).value].ForResult?))
            && (x.Some? ==>
                  && x.value.id == CallOf(reply).value && next.pending == wk.pending - {x.value.id}
                  && (x.value.outcome.Resolved? <==> reply.Ack? || (reply.Success? && wk.pending[reply.id].ForResult?))
                  && (reply.Ack? ==> x.value.outcome == Resolved(None))
                  && (x.value.outcome.Resolved? && reply.Success? ==> x.value.outcome == Resolved(Some(reply.result))))
            && (x.None? ==> next.pending == wk.pending)
            && next.prefix == wk.prefix
            && (next.readiness != wk.readiness <==>
                  heard && wk.readiness.Waiting? && (reply.InitAck? || reply.InitNack?))
            && (next.readiness != wk.readiness ==> next.readiness == if reply.InitAck? then Ready else InitFailed)
  {
  }

  // ----- what a waiting worker can count on --------------------------------------------------------

  /** The init that a worker was started with. */
  ghost function StartedWith(start: int, evs: seq<Event>, w: nat): (init: Option<Request>) {
    if evs == [] then None
    else
      var (before, ev) := (evs[..|evs| - 1], evs[|evs| - 1]);
      if ev.Spawn? && ev.w == w && Enabled(ClusterSpec.Exec(start, before), ev)
      then Some(Init(w, ev.prefix, ev.strategy, ev.version))
      else StartedWith(start, before, w)
  }

  ghost predicate Usable(init: Request) {
    init.Init? && Supported(init.version) && init.strategy.Valid()
  }

  /** A worker's acknowledgement is out, or about to go out. */
  ghost predicate Acked(s: Sys, w: nat, p: Prefix) {
    InitAck(w, p) in s.replies || s.active == Some(InitAck(w, p))
  }

  /** Acknowledged prefixes are served, also at workers that have heard. */
  ghost predicate AcksServed(s: Sys) {
    && (forall w, p :: Acked(s, w, p) ==> p in s.stores)
    && (forall w :: w in s.workers && s.workers[w].readiness.Ready? ==> s.workers[w].prefix in s.stores)
  }

  /** A worker that still waits has its init on the way, or its acknowledgement. */
  ghost predicate Expecting(s: Sys, w: nat, init: Request) {
    init.Init? && init.from == w && w in s.workers && s.workers[w].prefix == init.prefix
    && (s.workers[w].readiness.Waiting? ==> init in s.requests || Acked(s, w, init.prefix))
  }

  lemma StepAcks(s: Sys, ev: Event)
    requires ShopsOk(s.stores) && Enabled(s, ev) && AcksServed(s)
    ensures AcksServed(Step(s, ev))
  {
    hide Ok, Apply, Served;
    var r := Step(s, ev);
    if ev.Dispatch? {
      DispatchAcks(s, ev.request, ev.now);
      assert forall w, p :: InitAck(w, p) in s.replies ==> Acked(s, w, p);
    } else if ev.Deliver? {
      DeliverAcks(s, ev.w, ev.reply);
    } else {
      assert forall w, p :: Acked(r, w, p) ==> Acked(s, w, p);
    }
  }

  lemma DispatchAcks(s: Sys, req: Request, now: int)
    requires ShopsOk(s.stores)
    ensures var r := AfterDispatch(s, req, now);
            && r.replies == s.replies && r.workers == s.workers && r.requests == s.requests - {req}
            && (forall p :: p in s.stores ==> p in r.stores)
            && (r.active.Some? && r.active.value.InitAck? ==> r.active.value.prefix in r.stores)
            && (Usable(req) ==> r.active == Some(InitAck(req.from, req.prefix)))
  {
    hide Ok, Apply, Served;
  }

  lemma DeliverAcks(s: Sys, w: nat, reply: Reply)
    requires ShopsOk(s.stores) && Enabled(s, Deliver(w, reply)) && AcksServed(s)
    ensures AcksServed(Step(s, Deliver(w, reply)))
  {
    hide Ok, Apply, Handled;
    assert reply.InitAck? ==> Acked(s, reply.to, reply.prefix);
    assert forall v, p :: Acked(Step(s, Deliver(w, reply)), v, p) ==> Acked(s, v, p);
  }

  lemma StepExpects(s: Sys, ev: Event, w: nat, init: Request)
    requires ShopsOk(s.stores) && Enabled(s, ev) && Usable(init) && Expecting(s, w, init)
    ensures Expecting(Step(s, ev), w, init)
  {
    hide Ok, Apply, Served;
    if ev.Dispatch? {
      DispatchAcks(s, ev.request, ev.now);
      hide AfterDispatch;
    }
  }

  lemma SpawnExpects(s: Sys, ev: Event)
    requires ShopsOk(s.stores) && Enabled(s, ev) && ev.Spawn?
    ensures Expecting(Step(s, ev), ev.w, Init(ev.w, ev.prefix, ev.strategy, ev.version))
  {
    hide Ok;
  }

  lemma {:induction false} RunAcks(start: int, evs: seq<Event>)
    ensures AcksServed(ClusterSpec.Exec(start, evs))
  {
    if evs != [] {
      hide Step, Enabled, AcksServed, ShopsOk;
      RunAcks(start, evs[..|evs| - 1]);
      var prev := ClusterSpec.Exec(start, evs[..|evs| - 1]);
      if Enabled(prev, evs[|evs| - 1]) {
        StepAcks(prev, evs[|evs| - 1]);
      }
    }
  }

  lemma {:induction false} RunExpects(start: int, evs: seq<Event>, w: nat)
    requires StartedWith(start, evs, w).Some? && Usable(StartedWith(start, evs, w).value)
    ensures Expecting(ClusterSpec.Exec(start, evs), w, StartedWith(start, evs, w).value)
  {
    hide Step, Enabled, Expecting, Usable, ShopsOk;
    var (before, ev) := (evs[..|evs| - 1], evs[|evs| - 1]);
    var s := ClusterSpec.Exec(start, before);
    if ev.Spawn? && ev.w == w && Enabled(s, ev) {
      SpawnExpects(s, ev);
    } else {
      RunExpects(start, before, w);
      if Enabled(s, ev) {
        StepExpects(s, ev, w, StartedWith(start, before, w).value);
      }
    }
  }

  // ----- and how it gets it -------------------------------------------------------------------------

  lemma OneMore(start: int, evs: seq<Event>, ev: Event)
    requires Enabled(ClusterSpec.Exec(start, evs), ev)
    ensures ShopsOk(ClusterSpec.Exec(start, evs).stores)
    ensures ClusterSpec.Exec(start, evs + [ev]) == Step(ClusterSpec.Exec(start, evs), ev)
  {
    hide Step, Enabled, ShopsOk;
    assert (evs + [ev])[..|evs|] == evs;
  }

  /** The primary sends the answer it has, and is free. */
  lemma Flush(start: int, evs: seq<Event>) returns (more: seq<Event>)
    ensures evs <= more
    ensures var (s, r) := (ClusterSpec.Exec(start, evs), ClusterSpec.Exec(start, more));
            r == s.(active := None, replies := if s.active.Some? then s.replies + {s.active.value} else s.replies)
  {
    var s := ClusterSpec.Exec(start, evs);
    more := evs;
    if s.active.Some? {
      OneMore(start, evs, Send);
      more := evs + [Send];
    }
    hide ClusterSpec.Exec, ShopsOk;
  }

  /** A request that is on its way is handled at once, and its answer is sent. */
  lemma Handle(start: int, evs: seq<Event>, req: Request) returns (more: seq<Event>)
    requires req in ClusterSpec.Exec(start, evs).requests && ClusterSpec.Exec(start, evs).active.None?
    ensures evs <= more
    ensures var (s, r) := (ClusterSpec.Exec(start, evs), ClusterSpec.Exec(start, more));
            && ShopsOk(s.stores) && r.active.None? && r.workers == s.workers && r.settled == s.settled
            && r.owner == s.owner && r.sent == s.sent && s.replies <= r.replies
            && var reply := Handled(s.stores, req, s.clock).1; reply.Some? ==> reply.value in r.replies
  {
    hide ClusterSpec.Exec, ShopsOk, Handled;
    var s := ClusterSpec.Exec(start, evs);
    OneMore(start, evs, Dispatch(req, s.clock));
    more := Flush(start, evs + [Dispatch(req, s.clock)]);
    assert evs <= evs + [Dispatch(req, s.clock)];
  }

  /** A waiting worker with a usable init becomes ready, and nothing else happens to anybody. */
  lemma BecomesReady(start: int, evs: seq<Event>, w: nat) returns (more: seq<Event>)
    requires StartedWith(start, evs, w).Some? && Usable(StartedWith(start, evs, w).value)
    requires w in ClusterSpec.Exec(start, evs).workers && ClusterSpec.Exec(start, evs).workers[w].readiness.Waiting?
    ensures evs <= more
    ensures var (s, r) := (ClusterSpec.Exec(start, evs), ClusterSpec.Exec(start, more));
            r.workers == s.workers[w := s.workers[w].(readiness := Ready)] && r.settled == s.settled
  {
    var init := StartedWith(start, evs, w).value;
    RunExpects(start, evs, w);
    hide ClusterSpec.Exec, ShopsOk, StartedWith, Handled;
    more := Flush(start, evs);
    var s := ClusterSpec.Exec(start, more);
    if InitAck(w, init.prefix) !in s.replies {
      var later := Handle(start, more, init);
      AckOf(s.stores, init, s.clock);
      more := later;
    }
    var ack := Deliver(w, InitAck(w, init.prefix));
    Readied(ClusterSpec.Exec(start, more), w, init.prefix);
    OneMore(start, more, ack);
    hide Step;
    assert more <= more + [ack];
    more := more + [ack];
  }

  lemma Readied(s: Sys, w: nat, p: Prefix)
    requires w in s.workers && s.workers[w].readiness.Waiting? && s.workers[w].prefix == p && InitAck(w, p) in s.replies
    ensures Enabled(s, Deliver(w, InitAck(w, p)))
    ensures ShopsOk(s.stores) ==>
              var r := Step(s, Deliver(w, InitAck(w, p)));
              r.workers == s.workers[w := s.workers[w].(readiness := Ready)] && r.settled == s.settled
  {
    hide Ok, Handled;
  }

  lemma AckOf(stores: map<Prefix, Shop>, init: Request, now: int)
    requires ShopsOk(stores) && Usable(init)
    ensures Handled(stores, init, now).1 == Some(InitAck(init.from, init.prefix))
  {
    hide Ok;
    InitAnswered(stores, init, now);
  }

  /** The outcome of a call that was served: an increment's result, a mere acknowledgement otherwise. */
  ghost predicate ServedOutcome(body: Body, outcome: Outcome) {
    outcome.Resolved? && (outcome.result.Some? <==> body.Increment?)
  }

  /** The worker has made the call and been told of its outcome. */
  ghost predicate Told(s: Sys, w: nat, id: nat, body: Body, outcome: Outcome) {
    && w in s.workers && s.workers[w].readiness.Ready?
    && id in s.owner && s.owner[id] == w
    && id in s.sent && s.sent[id] == Call(id, s.workers[w].prefix, body)
    && Settlement(id, outcome) in s.settled
  }

  /** A call of a ready worker resolves. */
  lemma CallResolves(start: int, evs: seq<Event>, w: nat, body: Body)
    returns (more: seq<Event>, id: nat, outcome: Outcome)
    requires w in ClusterSpec.Exec(start, evs).workers && ClusterSpec.Exec(start, evs).workers[w].readiness.Ready?
    ensures evs <= more && ServedOutcome(body, outcome) && Told(ClusterSpec.Exec(start, more), w, id, body, outcome)
  {
    hide ClusterSpec.Exec, ShopsOk, Handled, ServedOutcome;
    more := Flush(start, evs);
    var s := ClusterSpec.Exec(start, more);
    id := s.nextId;
    OneMore(start, more, Invoke(w, body));
    RunAcks(start, more);
    assert more <= more + [Invoke(w, body)];
    more := more + [Invoke(w, body)];
    var t := ClusterSpec.Exec(start, more);
    var req := Call(id, t.workers[w].prefix, body);
    assert t.stores == s.stores;
    more := Handle(start, more, req);
    var reply := Handled(t.stores, req, t.clock).1;
    outcome := AnswerSettles(t.stores, t.workers[w], req, t.clock);
    OneMore(start, more, Deliver(w, reply.value));
    hide Received;
    assert more <= more + [Deliver(w, reply.value)];
    more := more + [Deliver(w, reply.value)];
  }

  /** The primary's answer to a call on a served prefix is what the worker that made it waits for. */
  lemma AnswerSettles(stores: map<Prefix, Shop>, wk: Worker, req: Request, now: int) returns (outcome: Outcome)
    requires ShopsOk(stores) && req.Call? && req.prefix in stores && wk.prefix == req.prefix && wk.readiness.Ready?
    requires req.id in wk.pending && wk.pending[req.id] == KindOf(req.body)
    ensures ServedOutcome(req.body, outcome)
    ensures var reply := Handled(stores, req, now).1;
            && reply.Some?
            && Received(wk, reply.value) == (wk.(pending := wk.pending - {req.id}), Some(Settlement(req.id, outcome)))
  {
    hide Ok, Apply;
    CallAnswered(stores, req, now);
    var reply := Handled(stores, req, now).1.value;
    outcome := Resolved(if req.body.Increment? then Some(reply.result) else None);
  }

  /**
   From every reachable state: a worker that still waits for a usable init has a continuation in which it becomes
   ready and any call of it resolves, an increment with a result.
   */
  lemma WaitingWorkerCanBeServed(start: int, evs: seq<Event>, w: nat, body: Body)
    returns (more: seq<Event>, id: nat, outcome: Outcome)
    requires StartedWith(start, evs, w).Some? && Usable(StartedWith(start, evs, w).value)
    requires w in ClusterSpec.Exec(start, evs).workers && ClusterSpec.Exec(start, evs).workers[w].readiness.Waiting?
    ensures evs <= more && ServedOutcome(body, outcome) && Told(ClusterSpec.Exec(start, more), w, id, body, outcome)
  {
    hide ClusterSpec.Exec, StartedWith, Usable, Told, ServedOutcome;
    var ready := BecomesReady(start, evs, w);
    more, id, outcome := CallResolves(start, ready, w, body);
  }
}
