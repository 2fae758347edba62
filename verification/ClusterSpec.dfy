/**
 One primary process serves the limiters of many workers over messages. The protocol as a
 state machine: messages are delayed and reordered at will, replies may also be lost or reach a
 worker twice, and any call may time out while its request is still on the way.

 Shutting a limiter down is not part of this machine.
 */
module ClusterSpec {
  import opened Entries
  import opened MemoryTable

  const PROTOCOL_VERSION := 1
  const MIN_PROTOCOL_VERSION := 1
  const PRIMARY_MAX_KEYS: nat := 100_000

  datatype Prefix = Prefix(name: string)

  datatype Body =
    | Increment(key: Key, override: Option<int>, cost: int)
    | Decrement(key: Key, cost: int, removeNewest: bool)
    | Reset(key: Key)

  datatype Request =
    | Init(from: nat, prefix: Prefix, strategy: Strategy, version: Option<int>)
    | Call(id: nat, prefix: Prefix, body: Body)

  datatype Reply =
    | InitAck(to: nat, prefix: Prefix)
    | InitNack(to: nat, prefix: Prefix)
    | Success(id: nat, prefix: Prefix, result: Result)
    | Failure(id: nat, prefix: Prefix)
    | Ack(id: nat, prefix: Prefix)

  datatype Readiness = Waiting | Ready | InitFailed

  /** What a call is waiting for: a result, or just an acknowledgement. */
  datatype Pending = ForResult | ForAck

  datatype Worker = Worker(prefix: Prefix, readiness: Readiness, pending: map<nat, Pending>)

  datatype Outcome = Resolved(result: Option<Result>) | Rejected

  datatype Settlement = Settlement(id: nat, outcome: Outcome)

  /** One operation that the primary ran on a store, and the call it served. */
  datatype Entry = Entry(op: StoreOp, id: Option<nat>)

  datatype Shop = Shop(lim: Limits, mem: Mem, history: seq<Entry>)

  /**
   `requests` are on their way or waiting in the primary's chain; `active` is the answer of the one
   handler that runs. `sent`, `owner`, `places` and `settled` record what happened.
   */
  datatype Sys = Sys(
    workers: map<nat, Worker>, requests: set<Request>, active: Option<Reply>, replies: set<Reply>,
    stores: map<Prefix, Shop>, clock: int, nextId: nat, sent: map<nat, Request>, owner: map<nat, nat>,
    places: map<nat, nat>, settled: seq<Settlement>)

  datatype Event =
    | Spawn(w: nat, prefix: Prefix, strategy: Strategy, version: Option<int>)
    | Invoke(w: nat, body: Body)
    | Timeout(w: nat, id: nat)
    | InitTimeout(w: nat)
    | Dispatch(request: Request, now: int)
    | Send
    | Deliver(w: nat, reply: Reply)
    | StorePurge(prefix: Prefix, now: int)

  // ----- the worker's side ------------------------------------------------------------------

  function KindOf(body: Body): (p: Pending) {
    if body.Increment? then ForResult else ForAck
  }

  /** What an incoming message does to a worker, and which call it settles. */
  function Received(wk: Worker, reply: Reply): (r: (Worker, Option<Settlement>)) {
    if wk.readiness.InitFailed? || reply.prefix != wk.prefix then (wk, None)
    else
      match reply
      case InitNack(_, _) => (if wk.readiness.Waiting? then wk.(readiness := InitFailed) else wk, None)
      case InitAck(_, _) => (if wk.readiness.Waiting? then wk.(readiness := Ready) else wk, None)
      case Success(id, _, result) =>
        if id !in wk.pending then (wk, None)
        else (wk.(pending := wk.pending - {id}),
          Some(Settlement(id, if wk.pending[id].ForResult? then Resolved(Some(result)) else Rejected)))
      case Failure(id, _) =>
        if id !in wk.pending then (wk, None)
        else (wk.(pending := wk.pending - {id}), Some(Settlement(id, Rejected)))
      case Ack(id, _) =>
        if id !in wk.pending || wk.pending[id].ForResult? then (wk, None)
        else (wk.(pending := wk.pending - {id}), Some(Settlement(id, Resolved(None))))
  }

  // ----- the primary's side ------------------------------------------------------------------

  /** The negotiated version must be supported; a missing one means version 1. */
  predicate VersionOk(version: Option<int>) {
    version.None? || MIN_PROTOCOL_VERSION <= version.value <= PROTOCOL_VERSION
  }

  function OpOf(body: Body, now: int): (op: StoreOp) {
    match body
    case Increment(key, override, cost) => Inc(key, override, cost, now)
    case Decrement(key, cost, removeNewest) => Dec(key, CostOf(cost), removeNewest)
    case Reset(key) => MemoryTable.Reset(key, now)
  }

  ghost predicate ShopsOk(stores: map<Prefix, Shop>) {
    forall p :: p in stores ==> Ok(stores[p].lim, stores[p].mem)
  }

  /** One operation on a store, recorded. */
  ghost function Served(shop: Shop, op: StoreOp, id: Option<nat>): (r: (Shop, Option<Result>))
    requires Ok(shop.lim, shop.mem)
    ensures Ok(r.0.lim, r.0.mem)
  {
    ApplyOk(shop.lim, shop.mem, op);
    var (mem, res) := Apply(shop.lim, shop.mem, op);
    (Shop(shop.lim, mem, shop.history + [Entry(op, id)]), res)
  }

  /** An existing store is shared, never replaced; unusable options answer nothing. */
  ghost function Initialized(stores: map<Prefix, Shop>, req: Request): (r: (map<Prefix, Shop>, Option<Reply>))
    requires req.Init? && ShopsOk(stores)
    ensures ShopsOk(r.0)
  {
    if !VersionOk(req.version) then (stores, Some(InitNack(req.from, req.prefix)))
    else if req.prefix in stores then (stores, Some(InitAck(req.from, req.prefix)))
    else if !req.strategy.Valid() then (stores, None)
    else
      EmptyOk(Limits(req.strategy, PRIMARY_MAX_KEYS), []);
      (stores[req.prefix := Shop(Limits(req.strategy, PRIMARY_MAX_KEYS), EMPTY, [])],
       Some(InitAck(req.from, req.prefix)))
  }

  ghost function Handled(stores: map<Prefix, Shop>, req: Request, now: int): (r: (map<Prefix, Shop>, Option<Reply>))
    requires ShopsOk(stores)
    ensures ShopsOk(r.0)
  {
    if req.Init? then Initialized(stores, req)
    else if req.prefix !in stores then (stores, Some(Failure(req.id, req.prefix)))
    else
      var (shop, res) := Served(stores[req.prefix], OpOf(req.body, now), Some(req.id));
      (stores[req.prefix := shop],
       Some(if req.body.Increment? && res.Some? then Success(req.id, req.prefix, res.value)
         else Ack(req.id, req.prefix)))
  }

  // ----- steps ------------------------------------------------------------------------------------

  /** Replies go to the worker that asked. */
  predicate AddressedTo(owner: map<nat, nat>, w: nat, reply: Reply) {
    match reply
    case InitAck(to, _) => to == w
    case InitNack(to, _) => to == w
    case Success(id, _, _) => id in owner && owner[id] == w
    case Failure(id, _) => id in owner && owner[id] == w
    case Ack(id, _) => id in owner && owner[id] == w
  }

  ghost predicate Enabled(s: Sys, ev: Event) {
    match ev
    case Spawn(w, _, _, _) => w !in s.workers
    case Invoke(w, _) => w in s.workers && s.workers[w].readiness.Ready?
    case Timeout(w, id) => w in s.workers && id in s.workers[w].pending
    case InitTimeout(w) => w in s.workers && s.workers[w].readiness.Waiting?
    case Dispatch(req, now) => req in s.requests && s.active.None? && s.clock <= now
    case Send => s.active.Some?
    case Deliver(w, reply) => w in s.workers && reply in s.replies && AddressedTo(s.owner, w, reply)
    case StorePurge(p, now) => p in s.stores && s.clock <= now
  }

  ghost function Step(s: Sys, ev: Event): (r: Sys)
    requires Enabled(s, ev) && ShopsOk(s.stores)
    ensures ShopsOk(r.stores)
  {
    match ev
    case Spawn(w, prefix, strategy, version) =>
      s.(workers := s.workers[w := Worker(prefix, Waiting, map[])],
        requests := s.requests + {Init(w, prefix, strategy, version)})
    case Invoke(w, body) =>
      var (wk, id) := (s.workers[w], s.nextId);
      var req := Call(id, wk.prefix, body);
      s.(workers := s.workers[w := wk.(pending := wk.pending[id := KindOf(body)])], requests := s.requests + {req},
         nextId := id + 1, sent := s.sent[id := req], owner := s.owner[id := w])
    case Timeout(w, id) =>
      s.(workers := s.workers[w := s.workers[w].(pending := s.workers[w].pending - {id})],
        settled := s.settled + [Settlement(id, Rejected)])
    case InitTimeout(w) => s.(workers := s.workers[w := s.workers[w].(readiness := InitFailed)])
    case Dispatch(req, now) => AfterDispatch(s, req, now)
    case Send => s.(active := None, replies := s.replies + {s.active.value})
    case Deliver(w, reply) =>
      var (wk, settles) := Received(s.workers[w], reply);
      s.(workers := s.workers[w := wk], settled := if settles.Some? then s.settled + [settles.value] else s.settled)
    case StorePurge(p, now) =>
      s.(stores := s.stores[p := Served(s.stores[p], PurgeTick(now), None).0], clock := now)
  }

  ghost function AfterDispatch(s: Sys, req: Request, now: int): (r: Sys)
    requires ShopsOk(s.stores)
    ensures ShopsOk(r.stores)
  {
    var (stores, reply) := Handled(s.stores, req, now);
    s.(requests := s.requests - {req}, active := reply, stores := stores, clock := now,
       places := if req.Call? && req.prefix in s.stores then s.places[req.id := |s.stores[req.prefix].history|]
         else s.places)
  }

  ghost function Exec(start: int, evs: seq<Event>): (s: Sys)
    ensures ShopsOk(s.stores)
  {
    if evs == [] then Sys(map[], {}, None, {}, map[], start, 0, map[], map[], map[], [])
    else
      var prev := Exec(start, evs[..|evs| - 1]);
      if Enabled(prev, evs[|evs| - 1]) then Step(prev, evs[|evs| - 1]) else prev
  }
}
