/**
 The two ends of the cluster protocol as the objects they are: a worker's table of pending
 calls, and the primary's map of stores.
 */
module Cluster {
  import opened Entries
  import opened MemoryTable
  import opened MemoryStore
  import opened ClusterSpec

  /** The worker's end. Every method returns the settlements of promises that it causes. */
  class ClusterStore {
    const keyPrefix: Prefix
    var readiness: Readiness
    var pending: map<nat, Pending>

    ghost function View(): (w: Worker)
      reads this
    {
      Worker(keyPrefix, readiness, pending)
    }

    constructor (keyPrefix: Prefix)
      ensures View() == Worker(keyPrefix, Waiting, map[])
    {
      this.keyPrefix, readiness, pending := keyPrefix, Waiting, map[];
    }

    method FailInit()
      modifies this`readiness
      ensures readiness == if old(readiness).Waiting? then InitFailed else old(readiness)
    {
      if readiness.Waiting? {
        readiness := InitFailed;
      }
    }

    method SettleInit()
      modifies this`readiness
      ensures readiness == if old(readiness).Waiting? then Ready else old(readiness)
    {
      if readiness.Waiting? {
        readiness := Ready;
      }
    }

    /** A duplicate id rejects the call it supersedes; with unique ids this does not happen. */
    method SetPending(id: nat, kind: Pending) returns (x: Option<Settlement>)
      modifies this`pending
      ensures pending == old(pending)[id := kind]
      ensures x == if id in old(pending) then Some(Settlement(id, Rejected)) else None
    {
      x := if id in pending then Some(Settlement(id, Rejected)) else None;
      pending := pending[id := kind];
    }

    /** The promise of a call: registered before its request leaves. */
    method Invoke(id: nat, body: Body) returns (request: Request)
      requires readiness.Ready? && id !in pending
      modifies this`pending
      ensures View() == old(View()).(pending := old(pending)[id := KindOf(body)])
      ensures request == Call(id, keyPrefix, body)
    {
      var _ := SetPending(id, KindOf(body));
      request := Call(id, keyPrefix, body);
    }

    method OnTimeout(id: nat) returns (x: Settlement)
      requires id in pending
      modifies this`pending
      ensures View() == old(View()).(pending := old(pending) - {id}) && x == Settlement(id, Rejected)
    {
      pending := pending - {id};
      x := Settlement(id, Rejected);
    }

    method DispatchResult(reply: Reply) returns (x: Option<Settlement>)
      requires (reply.Success? || reply.Failure?) && reply.prefix == keyPrefix && !readiness.InitFailed?
      modifies this`pending
      ensures (View(), x) == Received(old(View()), reply)
    {
      if reply.id !in pending {
        return None;
      }
      var kind := pending[reply.id];
      pending := pending - {reply.id};
      if kind.ForResult? && reply.Success? {
        return Some(Settlement(reply.id, Resolved(Some(reply.result))));
      }
      return Some(Settlement(reply.id, Rejected));
    }

    method DispatchAck(reply: Reply) returns (x: Option<Settlement>)
      requires reply.Ack? && reply.prefix == keyPrefix && !readiness.InitFailed?
      modifies this`pending
      ensures (View(), x) == Received(old(View()), reply)
    {
      if reply.id !in pending || !pending[reply.id].ForAck? {
        return None;
      }
      pending := pending - {reply.id};
      return Some(Settlement(reply.id, Resolved(None)));
    }

    /** After a failed init the listener is gone. */
    method HandleIncomingMessage(reply: Reply) returns (x: Option<Settlement>)
      modifies this
      ensures (View(), x) == Received(old(View()), reply)
    {
      x := None;
      if readiness.InitFailed? || reply.prefix != keyPrefix {
        return;
      }
      match reply
      case InitNack(_, _) => FailInit();
      case InitAck(_, _) => SettleInit();
      case Ack(_, _) => x := DispatchAck(reply);
      case _ => x := DispatchResult(reply);
    }
  }

  /** One operation of a call on a store. */
  method CallStore(store: MemoryStore, body: Body, now: int) returns (result: Option<Result>)
    requires store.Valid()
    modifies store
    ensures store.Valid() && (store.View(), result) == Apply(store.lim, old(store.View()), OpOf(body, now))
  {
    hide Ok, IncrementKey, DecrementKey, ResetKey;
    result := None;
    match body {
      case Increment(key, override, cost) =>
        var r := store.Increment(key, override, cost, now);
        result := Some(r);
      case Decrement(key, cost, removeNewest) => store.Decrement(key, cost, removeNewest);
      case Reset(key) => store.Reset(key, now);
    }
  }

  lemma ServedIs(shop: Shop, e: Entry)
    requires Ok(shop.lim, shop.mem)
    ensures var (mem, res) := Apply(shop.lim, shop.mem, e.op);
            Served(shop, e.op, e.id) == (Shop(shop.lim, mem, shop.history + [e]), res)
  {
    hide Ok, Apply;
  }

  /**
   The primary's end. Messages are handled one at a time; `shops` is what the stores hold and have served, and `home`
   the one prefix that each belongs to.
   */
  class ClusterStorePrimary {
    var stores: map<Prefix, MemoryStore>
    ghost var shops: map<Prefix, Shop>
    ghost var Repr: set<MemoryStore>
    ghost var home: map<MemoryStore, Prefix>

    ghost predicate Tied(p: Prefix)
      requires p in stores
      reads this, Repr
    {
      && stores[p] in Repr && stores[p].Valid() && stores[p] in home && home[stores[p]] == p
      && p in shops && shops[p].lim == stores[p].lim && shops[p].mem == stores[p].View()
    }

    ghost predicate Valid()
      reads this, Repr
    {
      && shops.Keys == stores.Keys
      && (forall p :: p in stores ==> Tied(p))
    }

    lemma ShopsAreOk()
      requires Valid()
      ensures ShopsOk(shops)
    {
      hide Ok;
      assert forall p :: p in stores ==> Tied(p);
    }

    constructor ()
      ensures Valid() && shops == map[] && Repr == {}
    {
      stores, shops, Repr, home := map[], map[], {}, map[];
    }

    method Register(p: Prefix, store: MemoryStore)
      requires Valid() && p !in stores && store !in Repr && store.Valid()
      modifies this
      ensures Valid() && Repr == old(Repr) + {store} && shops == old(shops)[p := Shop(store.lim, store.View(), [])]
    {
      hide Ok;
      assert forall q :: q in stores ==> Tied(q) && stores[q] != store;
      stores := stores[p := store];
      shops, Repr, home := shops[p := Shop(store.lim, store.View(), [])], Repr + {store}, home[store := p];
      forall q | q in stores ensures Tied(q) {
        assert q != p ==> old(Tied(q));
      }
    }

    method HandleInit(req: Request) returns (reply: Option<Reply>)
      requires Valid() && req.Init?
      modifies this
      ensures Valid() && fresh(Repr - old(Repr))
      ensures ShopsOk(old(shops)) && (shops, reply) == Initialized(old(shops), req)
    {
      hide Ok;
      ShopsAreOk();
      if !VersionOk(req.version) {
        return Some(InitNack(req.from, req.prefix));
      }
      if req.prefix in stores {
        return Some(InitAck(req.from, req.prefix));
      }
      if !req.strategy.Valid() {
        return None;
      }
      var store := new MemoryStore(req.strategy, PRIMARY_MAX_KEYS);
      Register(req.prefix, store);
      return Some(InitAck(req.from, req.prefix));
    }

    /** One operation on the prefix's own store; the others are not touched. */
    method Serve(req: Request, now: int) returns (result: Option<Result>)
      requires Valid() && req.Call? && req.prefix in stores
      modifies this`shops, stores[req.prefix]
      ensures Valid() && Repr == old(Repr) && stores == old(stores) && ShopsOk(old(shops))
      ensures var (shop, res) := Served(old(shops)[req.prefix], OpOf(req.body, now), Some(req.id));
              shops == old(shops)[req.prefix := shop] && result == res
    {
      hide Ok, Apply, OpOf, Served;
      ShopsAreOk();
      var store := stores[req.prefix];
      assert Tied(req.prefix);
      ghost var op := OpOf(req.body, now);
      ServedIs(shops[req.prefix], Entry(op, Some(req.id)));
      result := CallStore(store, req.body, now);
      shops := shops[req.prefix := Served(shops[req.prefix], op, Some(req.id)).0];
      assert forall p :: p in stores && p != req.prefix ==> old(Tied(p)) && Tied(p);
    }

    method DispatchWorkerMessage(req: Request, now: int) returns (reply: Option<Reply>)
      requires Valid()
      modifies this, Repr
      ensures Valid() && fresh(Repr - old(Repr))
      ensures ShopsOk(old(shops)) && (shops, reply) == Handled(old(shops), req, now)
    {
      hide Ok, Served, Initialized;
      ShopsAreOk();
      if req.Init? {
        reply := HandleInit(req);
      } else if req.prefix !in stores {
        reply := Some(Failure(req.id, req.prefix));
      } else {
        assert Tied(req.prefix);
        var res := Serve(req, now);
        reply := Some(if req.body.Increment? && res.Some? then Success(req.id, req.prefix, res.value)
          else Ack(req.id, req.prefix));
      }
    }
  }
}
