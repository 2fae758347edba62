/**
 The waiting queue as the object it is: an intrusive doubly linked list of entries, flags
 and timers, updated in place. Each method is what runs between two awaits, and is proved
 to do to the list's contents exactly what `QueueSpec` says.
 */
module RateLimiterQueue {
  import opened Entries
  import opened QueueSpec

  class QueueEntry {
    const id: nat
    const key: Key
    const cost: int
    var prev: QueueEntry?
    var next: QueueEntry?

    constructor (id: nat, key: Key, cost: int)
      ensures this.id == id && this.key == key && this.cost == cost && prev == null && next == null
    {
      this.id, this.key, this.cost := id, key, cost;
      prev, next := null, null;
    }

    function Val(): (e: Entry) {
      Entry(id, key, cost)
    }
  }

  datatype Await = ForIncrement | ForStaleUndo | ForBlockedUndo

  /** A suspended drain: the entry it captured and where it awaits. */
  datatype Suspended = Suspended(entry: QueueEntry, at: Await) {
    function AsFrame(): (f: Frame) {
      match at
      case ForIncrement => AwaitIncrement(entry.Val())
      case ForStaleUndo => AwaitStaleUndo(entry.Val())
      case ForBlockedUndo => AwaitBlockedUndo(entry.Val())
    }
  }

  function Frames(suspended: map<nat, Suspended>): (r: map<nat, Frame>)
    ensures r.Keys == suspended.Keys
  {
    map c | c in suspended :: suspended[c].AsFrame()
  }

  lemma FramesChange(suspended: map<nat, Suspended>, c: nat, s: Suspended)
    ensures Frames(suspended[c := s]) == Frames(suspended)[c := s.AsFrame()]
    ensures Frames(suspended - {c}) == Frames(suspended) - {c}
  {
  }

  lemma FramesAt(suspended: map<nat, Suspended>, c: nat)
    requires c in suspended
    ensures c in Frames(suspended) && Frames(suspended)[c] == suspended[c].AsFrame()
  {
  }

  // ----- sequences of entries ------------------------------------------------------

  ghost function Vals(nodes: seq<QueueEntry>): (s: seq<Entry>)
    ensures |s| == |nodes|
    ensures forall i :: 0 <= i < |nodes| ==> s[i] == nodes[i].Val()
  {
    if nodes == [] then [] else [nodes[0].Val()] + Vals(nodes[1..])
  }

  ghost function Without(nodes: seq<QueueEntry>, i: nat): (r: seq<QueueEntry>)
    requires i < |nodes|
    ensures |r| == |nodes| - 1
  {
    nodes[..i] + nodes[i + 1..]
  }

  ghost function Members(nodes: seq<QueueEntry>): (r: set<QueueEntry>) {
    set e | e in nodes
  }

  ghost predicate OnePerId(nodes: set<QueueEntry>) {
    forall a, b :: a in nodes && b in nodes && a.id == b.id ==> a == b
  }

  lemma {:induction false} RemoveAt(queue: seq<Entry>, i: nat)
    requires i < |queue| && forall j :: 0 <= j < i ==> queue[j] != queue[i]
    ensures Remove(queue, queue[i]) == queue[..i] + queue[i + 1..]
  {
    if i > 0 {
      RemoveAt(queue[1..], i - 1);
      assert [queue[0]] + (queue[1..][..i - 1] + queue[1..][i..]) == queue[..i] + queue[i + 1..];
    }
  }

  lemma {:induction false} RemoveAbsent(queue: seq<Entry>, e: Entry)
    requires forall j :: 0 <= j < |queue| ==> queue[j] != e
    ensures Remove(queue, e) == queue
  {
    if queue != [] {
      RemoveAbsent(queue[1..], e);
    }
  }

  lemma ValsWithout(nodes: seq<QueueEntry>, i: nat)
    requires i < |nodes| && forall j :: 0 <= j < i ==> nodes[j].Val() != nodes[i].Val()
    ensures Vals(Without(nodes, i)) == Remove(Vals(nodes), nodes[i].Val())
  {
    hide Vals, Remove;
    var all := Vals(nodes);
    RemoveAt(all, i);
    ValsPointwise(nodes, i, all[..i] + all[i + 1..]);
  }

  lemma ValsPointwise(nodes: seq<QueueEntry>, i: nat, rest: seq<Entry>)
    requires i < |nodes| && |rest| == |nodes| - 1
    requires forall j :: 0 <= j < |rest| ==> rest[j] == nodes[if j < i then j else j + 1].Val()
    ensures Vals(Without(nodes, i)) == rest
  {
    hide Vals;
  }

  ghost predicate Distinct(nodes: seq<QueueEntry>) {
    forall i, j :: 0 <= i < j < |nodes| ==> nodes[i] != nodes[j]
  }

  lemma DistinctWithout(nodes: seq<QueueEntry>, at: nat)
    requires Distinct(nodes) && at < |nodes|
    ensures Distinct(Without(nodes, at)) && nodes[at] !in Without(nodes, at)
  {
  }

  lemma EndsWithout(nodes: seq<QueueEntry>, at: nat)
    requires Distinct(nodes) && at < |nodes|
    ensures At(Without(nodes, at), 0) == (if at == 0 then At(nodes, 1) else nodes[0])
    ensures At(Without(nodes, at), |nodes| - 2) == (if at == |nodes| - 1 then At(nodes, at - 1) else nodes[|nodes| - 1])
    ensures At(nodes, at - 1) != nodes[at] && At(nodes, at + 1) != nodes[at]
  {
  }

  lemma DistinctSnoc(nodes: seq<QueueEntry>, e: QueueEntry)
    requires Distinct(nodes) && e !in nodes
    ensures Distinct(nodes + [e])
  {
  }

  lemma WithoutKeepsOthers(nodes: seq<QueueEntry>, at: nat)
    requires at < |nodes|
    ensures forall e :: e in nodes && e != nodes[at] ==> e in Without(nodes, at)
  {
    forall e | e in nodes && e != nodes[at] ensures e in Without(nodes, at) {
      var i :| 0 <= i < |nodes| && nodes[i] == e;
      assert Without(nodes, at)[if i < at then i else i - 1] == e;
    }
  }

  lemma RemoveHead(queue: seq<Entry>)
    ensures queue != [] ==> Remove(queue, queue[0]) == queue[1..]
  {
  }

  lemma {:induction false} RejectAllSnoc(queue: seq<Entry>, e: Entry, code: Code)
    ensures RejectAll(queue + [e], code) == RejectAll(queue, code) + [Reject(e, code)]
  {
    if queue != [] {
      assert (queue + [e])[1..] == queue[1..] + [e];
      RejectAllSnoc(queue[1..], e, code);
    }
  }

  ghost function At(nodes: seq<QueueEntry>, i: int): (e: QueueEntry?) {
    if 0 <= i < |nodes| then nodes[i] else null
  }

  /** The pointers of a set of entries, as values. */
  datatype Pointers = Pointers(prev: map<QueueEntry, QueueEntry?>, next: map<QueueEntry, QueueEntry?>)

  /** The entry at `i` points to the ones before and after it. */
  ghost predicate LinkedAt(p: Pointers, nodes: seq<QueueEntry>, i: nat)
    requires i < |nodes|
  {
    && nodes[i] in p.prev && nodes[i] in p.next
    && p.prev[nodes[i]] == At(nodes, i - 1) && p.next[nodes[i]] == At(nodes, i + 1)
  }

  ghost predicate Chained(p: Pointers, nodes: seq<QueueEntry>) {
    forall i :: 0 <= i < |nodes| ==> LinkedAt(p, nodes, i)
  }

  /** Entries outside the list point nowhere. */
  ghost predicate OthersLoose(p: Pointers, nodes: seq<QueueEntry>) {
    && p.prev.Keys == p.next.Keys
    && forall e :: e in p.prev && e !in nodes ==> p.prev[e] == null && p.next[e] == null
  }

  /** From `p` to `q`, exactly the pointers that joined `e` to its neighbours have changed. */
  ghost predicate Spliced(p: Pointers, q: Pointers, e: QueueEntry)
    requires e in p.prev && e in p.next
  {
    && p.prev.Keys == p.next.Keys == q.prev.Keys == q.next.Keys
    && (forall x :: x in p.prev ==>
          q.prev[x] == if x == e then null else if x == p.next[e] then p.prev[e] else p.prev[x])
    && (forall x :: x in p.next ==>
          q.next[x] == if x == e then null else if x == p.prev[e] then p.next[e] else p.next[x])
  }

  /** Which neighbours the `i`-th remaining entry gets. */
  lemma Neighbours(was: seq<QueueEntry>, at: nat, i: nat)
    requires Distinct(was) && at < |was| && i < |was| - 1
    ensures var k, rest := (if i < at then i else i + 1), Without(was, at);
            && rest[i] == was[k] && was[k] != was[at]
            && (was[k] == At(was, at - 1) <==> k == at - 1)
            && (was[k] == At(was, at + 1) <==> k == at + 1)
            && At(rest, i - 1) == (if k == at + 1 then At(was, at - 1) else At(was, k - 1))
            && At(rest, i + 1) == (if k == at - 1 then At(was, at + 1) else At(was, k + 1))
  {
  }

  /** Splicing out an entry leaves the others linked to each other. */
  lemma SplicedChain(p: Pointers, q: Pointers, was: seq<QueueEntry>, at: nat)
    requires Distinct(was) && Chained(p, was) && at < |was| && was[at] in p.prev && was[at] in p.next
    requires Spliced(p, q, was[at])
    ensures Chained(q, Without(was, at))
  {
    assert LinkedAt(p, was, at);
    var rest := Without(was, at);
    forall i | 0 <= i < |rest| ensures LinkedAt(q, rest, i) {
      var k := if i < at then i else i + 1;
      assert LinkedAt(p, was, k);
      Neighbours(was, at, i);
      hide Distinct, Without;
    }
  }

  lemma SplicedOthers(p: Pointers, q: Pointers, was: seq<QueueEntry>, at: nat)
    requires Chained(p, was) && at < |was| && OthersLoose(p, was) && was[at] in p.prev && was[at] in p.next
    requires Spliced(p, q, was[at])
    ensures OthersLoose(q, Without(was, at))
  {
    assert LinkedAt(p, was, at);
    WithoutKeepsOthers(was, at);
    hide Without;
  }

  /** From `p` to `q`, the entry `e` has been hung behind the last node. */
  ghost predicate Extended(p: Pointers, q: Pointers, nodes: seq<QueueEntry>, e: QueueEntry) {
    && p.prev.Keys == p.next.Keys && q.prev.Keys == q.next.Keys == p.prev.Keys + {e}
    && (forall x :: x in q.prev ==> q.prev[x] == if x == e then At(nodes, |nodes| - 1) else p.prev[x])
    && (forall x :: x in q.next ==>
          q.next[x] == if x == e then null else if x == At(nodes, |nodes| - 1) then e else p.next[x])
  }

  lemma ExtendedChain(p: Pointers, q: Pointers, nodes: seq<QueueEntry>, e: QueueEntry)
    requires Distinct(nodes) && Chained(p, nodes) && e !in nodes && Extended(p, q, nodes, e)
    ensures Chained(q, nodes + [e])
  {
    forall i | 0 <= i < |nodes| + 1 ensures LinkedAt(q, nodes + [e], i) {
      if i < |nodes| {
        assert LinkedAt(p, nodes, i);
      }
    }
  }

  lemma ExtendedOthers(p: Pointers, q: Pointers, nodes: seq<QueueEntry>, e: QueueEntry)
    requires OthersLoose(p, nodes) && Extended(p, q, nodes, e)
    ensures OthersLoose(q, nodes + [e])
  {
  }

  /** The first `i` nodes point nowhere any more; all other pointers are as they were. */
  ghost predicate Unhooked(p: Pointers, q: Pointers, was: seq<QueueEntry>, i: nat)
    requires i <= |was|
  {
    && p.prev.Keys == p.next.Keys == q.prev.Keys == q.next.Keys
    && forall x :: x in q.prev ==>
         if x in was[..i] then q.prev[x] == null && q.next[x] == null
         else q.prev[x] == p.prev[x] && q.next[x] == p.next[x]
  }

  ghost predicate UnhookedOne(q: Pointers, r: Pointers, e: QueueEntry) {
    && q.prev.Keys == q.next.Keys == r.prev.Keys == r.next.Keys
    && forall x :: x in q.prev ==>
         if x == e then r.prev[x] == null && r.next[x] == null else r.prev[x] == q.prev[x] && r.next[x] == q.next[x]
  }

  lemma StepInto(p: Pointers, q: Pointers, was: seq<QueueEntry>, i: nat)
    requires i < |was| && Distinct(was) && Chained(p, was) && Unhooked(p, q, was, i)
    ensures was[i] in q.next && q.next[was[i]] == At(was, i + 1)
  {
    assert LinkedAt(p, was, i);
  }

  lemma UnhookedNext(p: Pointers, q: Pointers, r: Pointers, was: seq<QueueEntry>, i: nat)
    requires i < |was| && Unhooked(p, q, was, i) && UnhookedOne(q, r, was[i])
    ensures Unhooked(p, r, was, i + 1)
  {
    assert was[..i + 1] == was[..i] + [was[i]];
  }

  lemma NoneUnhooked(p: Pointers, was: seq<QueueEntry>)
    requires p.prev.Keys == p.next.Keys
    ensures Unhooked(p, p, was, 0)
  {
  }

  lemma AllUnhooked(p: Pointers, q: Pointers, was: seq<QueueEntry>)
    requires OthersLoose(p, was) && Unhooked(p, q, was, |was|)
    ensures Chained(q, []) && OthersLoose(q, []) && Distinct([])
  {
    assert was[..|was|] == was;
  }

  lemma NoMembers()
    ensures Members([]) == {}
  {
  }

  lemma NoneRejected(was: seq<QueueEntry>, code: Code)
    ensures RejectAll(Vals(was[..0]), code) == []
  {
  }

  lemma RejectedOne(was: seq<QueueEntry>, i: nat, code: Code)
    requires i < |was|
    ensures RejectAll(Vals(was[..i + 1]), code) == RejectAll(Vals(was[..i]), code) + [Reject(was[i].Val(), code)]
  {
    assert Vals(was[..i + 1]) == Vals(was[..i]) + [was[i].Val()];
    RejectAllSnoc(Vals(was[..i]), was[i].Val(), code);
  }

  class RateLimiterQueue {
    const cfg: Settings
    var queueHead: QueueEntry?
    var queueTail: QueueEntry?
    var queueLength: nat
    var processing: bool
    var drainTimer: bool
    var isShutdown: bool
    var shutdownQueueTimeoutUnlinks: nat
    /** Entries whose wait timer is running. */
    var waitTimers: set<QueueEntry>
    var suspended: map<nat, Suspended>
    var nextCall: nat
    var nextId: nat
    var ctl: Ctl

    /** The entries in the list, in order, and every entry ever accepted. */
    ghost var nodes: seq<QueueEntry>
    ghost var known: set<QueueEntry>

    ghost function Links(): (p: Pointers)
      reads this`known, known`prev, known`next
      ensures p.prev.Keys == p.next.Keys == known
    {
      Pointers(map e | e in known :: e.prev, map e | e in known :: e.next)
    }

    /** The pointers represent the sequence `nodes`, of the recorded length, and nothing else. */
    ghost predicate Linked()
      reads this`nodes, this`known, this`queueHead, this`queueTail, this`queueLength, known`prev, known`next
    {
      && |nodes| == queueLength && Distinct(nodes)
      && queueHead == At(nodes, 0) && queueTail == At(nodes, |nodes| - 1)
      && Chained(Links(), nodes) && OthersLoose(Links(), nodes)
    }

    /** Exactly the entries in the list have a wait timer running, if waits are timed. */
    ghost predicate TimersMatch()
      reads this`nodes, this`waitTimers
    {
      waitTimers == if cfg.timed then Members(nodes) else {}
    }

    /** The list, its wait timers and the entries' identities are in order. */
    ghost predicate Intact()
      reads this`nodes, this`known, this`queueHead, this`queueTail, this`queueLength, this`nextId, this`waitTimers,
            known
    {
      Linked() && TimersMatch() && OnePerId(known) && forall e :: e in known ==> e.id < nextId
    }

    ghost predicate Valid()
      reads this, known
    {
      Intact() && forall c :: c in suspended ==> suspended[c].entry in known
    }

    ghost function View(): (q: Q)
      reads this
    {
      Q(Vals(nodes), processing, drainTimer, Frames(suspended), nextCall, nextId,
        isShutdown, shutdownQueueTimeoutUnlinks, ctl)
    }

    constructor (cfg: Settings)
      ensures Valid() && View() == INITIAL && this.cfg == cfg
    {
      this.cfg := cfg;
      queueHead, queueTail, queueLength := null, null, 0;
      processing, drainTimer, isShutdown, shutdownQueueTimeoutUnlinks := false, false, false, 0;
      waitTimers, suspended, nextCall, nextId, ctl := {}, map[], 0, 0, Open;
      nodes, known := [], {};
    }

    // ----- the linked list -------------------------------------------------------------

    method EnqueueTail(entry: QueueEntry)
      requires Linked() && entry !in known && entry.prev == null && entry.next == null
      modifies this`queueHead, this`queueTail, this`queueLength, this`nodes, this`known, known`next, entry`prev,
               entry`next
      ensures Linked() && nodes == old(nodes) + [entry] && known == old(known) + {entry}
    {
      hide Linked, Distinct, Chained, OthersLoose, Extended, Links;
      Parts();
      ghost var was, p := nodes, Links();
      DistinctSnoc(was, entry);
      Hang(entry);
      queueLength := queueLength + 1;
      ExtendedChain(p, Links(), was, entry);
      ExtendedOthers(p, Links(), was, entry);
      nodes := was + [entry];
      Whole();
    }

    method Hang(entry: QueueEntry)
      requires entry !in known && queueTail == At(nodes, |nodes| - 1) && (queueTail != null ==> queueTail in known)
      modifies this`queueHead, this`queueTail, this`known, known`next, entry`prev, entry`next
      ensures known == old(known) + {entry} && Extended(old(Links()), Links(), nodes, entry)
      ensures queueHead == (if old(queueTail) == null then entry else old(queueHead)) && queueTail == entry
    {
      entry.prev := queueTail;
      entry.next := null;
      if queueTail != null {
        queueTail.next := entry;
      } else {
        queueHead := entry;
      }
      queueTail := entry;
      known := known + {entry};
    }

    lemma NodesKnown()
      requires Linked()
      ensures Distinct(nodes) && forall e :: e in nodes ==> e in known
    {
      forall e | e in nodes ensures e in known {
        var i :| 0 <= i < |nodes| && nodes[i] == e;
        assert LinkedAt(Links(), nodes, i);
      }
    }

    /** The pointer test tells members from non-members. */
    lemma MemberTest(entry: QueueEntry)
      requires Linked() && entry in known
      ensures entry in nodes <==> !(queueHead != entry && entry.prev == null && entry.next == null)
    {
      assert Links().prev[entry] == entry.prev && Links().next[entry] == entry.next;
      if entry in nodes {
        var i :| 0 <= i < |nodes| && nodes[i] == entry;
        assert LinkedAt(Links(), nodes, i);
      }
    }

    /** Take the entry at a known place out of the list. */
    method Detach(entry: QueueEntry, ghost at: nat)
      requires Linked() && at < |nodes| && nodes[at] == entry
      modifies this`queueHead, this`queueTail, this`queueLength, this`nodes, known`prev, known`next
      ensures Linked() && nodes == Without(old(nodes), at)
    {
      hide Linked, Distinct, Chained, OthersLoose, Without, Spliced, Links;
      ghost var was, p := nodes, Links();
      AtNode(at);
      Parts();
      DistinctWithout(was, at);
      EndsWithout(was, at);
      queueLength := queueLength - 1;
      Splice(entry);
      SplicedChain(p, Links(), was, at);
      SplicedOthers(p, Links(), was, at);
      nodes := Without(was, at);
      Whole();
    }

    lemma Parts()
      requires Linked()
      ensures |nodes| == queueLength && Distinct(nodes) && (forall e :: e in nodes ==> e in known)
      ensures queueHead == At(nodes, 0) && queueTail == At(nodes, |nodes| - 1)
      ensures Chained(Links(), nodes) && OthersLoose(Links(), nodes)
    {
      NodesKnown();
    }

    lemma Whole()
      requires |nodes| == queueLength && Distinct(nodes)
      requires queueHead == At(nodes, 0) && queueTail == At(nodes, |nodes| - 1)
      requires Chained(Links(), nodes) && OthersLoose(Links(), nodes)
      ensures Linked()
    {
    }

    lemma AtNode(at: nat)
      requires Linked() && at < |nodes|
      ensures var e := nodes[at];
              && e in known && e.prev == At(nodes, at - 1) && e.next == At(nodes, at + 1)
              && (e.prev != null ==> e.prev in known) && (e.next != null ==> e.next in known)
    {
      assert LinkedAt(Links(), nodes, at);
      NodesKnown();
    }

    /** The pointer writes that take an entry out from between its neighbours. */
    method Splice(entry: QueueEntry)
      requires entry in known && entry.prev != entry && entry.next != entry
      requires (entry.prev != null ==> entry.prev in known) && (entry.next != null ==> entry.next in known)
      modifies this`queueHead, this`queueTail, known`prev, known`next
      ensures Spliced(old(Links()), Links(), entry)
      ensures queueHead == (if old(entry.prev) == null then old(entry.next) else old(queueHead))
      ensures queueTail == (if old(entry.next) == null then old(entry.prev) else old(queueTail))
    {
      if entry.prev != null {
        entry.prev.next := entry.next;
      } else {
        queueHead := entry.next;
      }
      if entry.next != null {
        entry.next.prev := entry.prev;
      } else {
        queueTail := entry.prev;
      }
      entry.prev := null;
      entry.next := null;
    }

    method Unlink(entry: QueueEntry) returns (removed: bool, ghost at: nat)
      requires Linked() && entry in known
      modifies this`queueHead, this`queueTail, this`queueLength, this`nodes, known`prev, known`next
      ensures Linked() && removed == (entry in old(nodes))
      ensures removed ==> at < |old(nodes)| && old(nodes)[at] == entry
      ensures nodes == if removed then Without(old(nodes), at) else old(nodes)
    {
      MemberTest(entry);
      if queueHead != entry && entry.prev == null && entry.next == null {
        return false, 0;
      }
      at :| 0 <= at < |nodes| && nodes[at] == entry;
      Detach(entry, at);
      removed := true;
    }

    /** What every change to the list needs to know about its members. */
    lemma HeadKnown()
      requires Valid()
      ensures forall e :: e in nodes ==> e in known
      ensures (queueHead == null <==> nodes == []) && (nodes != [] ==> queueHead == nodes[0] && queueHead in known)
      ensures |nodes| == queueLength == |View().queue|
      ensures nodes != [] ==> View().queue[0] == queueHead.Val()
    {
      NodesKnown();
      if nodes != [] {
        assert nodes[0] in nodes;
      }
    }

    /** Reference equality of known entries is equality of their values. */
    lemma SameEntry(a: QueueEntry, b: QueueEntry)
      requires Valid() && a in known && b in known
      ensures a == b <==> a.Val() == b.Val()
    {
    }

    // ----- the drain loop ------------------------------------------------------------

    /** From the loop head to the next await. */
    method RunLoop() returns (effects: seq<Effect>)
      requires Valid()
      modifies this`processing, this`suspended, this`nextCall
      ensures Valid() && (View(), effects) == Loop(old(View()))
    {
      hide Intact, Frames, Vals;
      HeadKnown();
      if queueHead == null {
        if !drainTimer {
          processing := false;
        }
        return [];
      }
      var entry := queueHead;
      effects := [Charge(nextCall, entry.key, entry.cost)];
      FramesChange(suspended, nextCall, Suspended(entry, ForIncrement));
      suspended := suspended[nextCall := Suspended(entry, ForIncrement)];
      nextCall := nextCall + 1;
    }

    method RunDrain() returns (effects: seq<Effect>)
      requires Valid()
      modifies this`processing, this`suspended, this`nextCall
      ensures Valid() && (View(), effects) == Drain(old(View()))
    {
      hide Intact, Loop, Frames, Vals;
      if processing {
        return [];
      }
      processing := true;
      effects := RunLoop();
    }

    /** Take an entry out of the list and stop its wait timer. */
    method Settle(entry: QueueEntry) returns (removed: bool)
      requires Intact() && entry in known
      modifies this`queueHead, this`queueTail, this`queueLength, this`nodes, this`waitTimers, known`prev, known`next
      ensures Intact() && removed == (entry in old(nodes))
      ensures Vals(nodes) == Remove(old(Vals(nodes)), entry.Val())
    {
      hide Linked, Distinct, Without, Vals, Remove, OnePerId, Members;
      NodesKnown();
      ghost var at;
      ghost var was := nodes;
      removed, at := Unlink(entry);
      Settled(was, entry, at, removed, nodes);
      waitTimers := waitTimers - {entry};
    }

    lemma Settled(was: seq<QueueEntry>, entry: QueueEntry, at: nat, removed: bool, rest: seq<QueueEntry>)
      requires OnePerId(known) && (forall e :: e in was ==> e in known) && entry in known && Distinct(was)
      requires removed == (entry in was) && (removed ==> at < |was| && was[at] == entry)
      requires rest == if removed then Without(was, at) else was
      ensures Vals(rest) == Remove(Vals(was), entry.Val())
      ensures Members(rest) == Members(was) - {entry} && (removed <==> entry in Members(was))
    {
      if removed {
        forall j | 0 <= j < at ensures was[j].Val() != was[at].Val() {
          assert was[j] in was;
        }
        ValsWithout(was, at);
        WithoutKeepsOthers(was, at);
        DistinctWithout(was, at);
      } else {
        forall j | 0 <= j < |was| ensures Vals(was)[j] != entry.Val() {
          assert was[j] in was;
        }
        RemoveAbsent(Vals(was), entry.Val());
      }
    }

    // ----- events --------------------------------------------------------------------

    method RemoveTokens(key: Key, cost: int) returns (effects: seq<Effect>)
      requires Valid()
      modifies this, known
      ensures Valid() && (View(), effects) == Step(cfg, old(View()), Event.RemoveTokens(key, cost))
    {
      hide Intact, Vals, Frames, Drain, Loop;
      HeadKnown();
      if isShutdown {
        return [Refuse(QueueShutdown)];
      }
      if cfg.maxQueueSize.Some? && queueLength >= cfg.maxQueueSize.value {
        return [Refuse(QueueFull)];
      }
      if cost < 1 {
        return [Refuse(InvalidCost)];
      }
      if cost > cfg.maxRequests {
        return [Refuse(CostExceedsLimit)];
      }
      Accept(key, cost);
      effects := RunDrain();
    }

    /** A new entry goes last, with its wait timer running if waits are timed. */
    method Accept(key: Key, cost: int)
      requires Intact()
      modifies this`queueHead, this`queueTail, this`queueLength, this`nodes, this`known, this`waitTimers,
               this`nextId, known`next
      ensures Intact() && old(known) <= known && fresh(known - old(known)) && nextId == old(nextId) + 1
      ensures Vals(nodes) == old(Vals(nodes)) + [Entry(old(nextId), key, cost)]
    {
      hide Linked, Vals, OnePerId, Members;
      var entry := new QueueEntry(nextId, key, cost);
      Accepted(nodes, entry, known);
      if cfg.timed {
        waitTimers := waitTimers + {entry};
      }
      EnqueueTail(entry);
      nextId := nextId + 1;
    }

    lemma Accepted(was: seq<QueueEntry>, entry: QueueEntry, all: set<QueueEntry>)
      requires OnePerId(all) && forall e :: e in all ==> e.id < entry.id
      ensures Vals(was + [entry]) == Vals(was) + [entry.Val()]
      ensures Members(was + [entry]) == Members(was) + {entry}
      ensures OnePerId(all + {entry})
    {
    }

    method OnWaitTimeout(entry: QueueEntry) returns (effects: seq<Effect>)
      requires Valid() && entry in waitTimers
      modifies this, known
      ensures old(Enabled(cfg, View(), WaitTimeout(entry.Val())))
      ensures Valid() && (View(), effects) == Step(cfg, old(View()), WaitTimeout(entry.Val()))
    {
      hide Intact, Vals, Frames, Drain, Loop, Remove;
      HeadKnown();
      TimedIn(entry);
      if queueHead != null {
        SameEntry(entry, queueHead);
      }
      var wasHead := entry == queueHead;
      var removed := Settle(entry);
      if isShutdown {
        shutdownQueueTimeoutUnlinks := shutdownQueueTimeoutUnlinks + 1;
      }
      effects := [Reject(entry.Val(), QueueTimeout)];
      if wasHead && drainTimer {
        drainTimer, processing := false, false;
      }
      var more := RunDrain();
      effects := effects + more;
    }

    lemma TimedIn(entry: QueueEntry)
      requires Valid() && entry in waitTimers
      ensures cfg.timed && entry in nodes && entry in known && entry.Val() in Vals(nodes)
    {
      NodesKnown();
      var i :| 0 <= i < |nodes| && nodes[i] == entry;
      assert Vals(nodes)[i] == entry.Val();
    }

    method OnRetry() returns (effects: seq<Effect>)
      requires Valid() && drainTimer
      modifies this`drainTimer, this`processing, this`suspended, this`nextCall
      ensures Valid() && (View(), effects) == Step(cfg, old(View()), Retry)
    {
      hide Intact, Vals, Frames, Drain, Loop;
      drainTimer, processing := false, false;
      effects := RunDrain();
    }

    method OnReply(c: nat, res: Result) returns (effects: seq<Effect>)
      requires Valid() && c in suspended && suspended[c].at.ForIncrement?
      modifies this, known
      ensures old(Enabled(cfg, View(), Reply(c, res)))
      ensures Valid() && (View(), effects) == Step(cfg, old(View()), Reply(c, res))
    {
      hide Intact, Vals, Frames, Drain, Loop, Remove;
      HeadKnown();
      var entry := suspended[c].entry;
      FramesAt(suspended, c);
      if queueHead != null {
        SameEntry(entry, queueHead);
      }
      if queueHead != entry {
        FramesChange(suspended, c, Suspended(entry, ForStaleUndo));
        suspended := suspended[c := Suspended(entry, ForStaleUndo)];
        return [UndoCall(cfg, c, entry.Val(), res.isBlocked)];
      }
      if !res.isBlocked {
        effects := Release(c, entry, res);
        return;
      }
      FramesChange(suspended, c, Suspended(entry, ForBlockedUndo));
      suspended := suspended[c := Suspended(entry, ForBlockedUndo)];
      effects := [UndoCall(cfg, c, entry.Val(), true)];
    }

    /** The head has its tokens: resolve it and go on draining. */
    method Release(c: nat, entry: QueueEntry, res: Result) returns (effects: seq<Effect>)
      requires Valid() && c in suspended && entry == queueHead
      modifies this, known
      ensures Valid() && old(View()).queue != []
      ensures var (was, q) := (old(View()), old(View()).(queue := old(View()).queue[1..]));
              var (next, more) := Loop(q.(frames := was.frames - {c}));
              View() == next && effects == [Resolve(c, entry.Val(), res.remaining, res.resetTime)] + more
    {
      hide Intact, Vals, Frames, Loop, Remove;
      HeadKnown();
      RemoveHead(View().queue);
      FramesChange(suspended, c, Suspended(entry, ForIncrement));
      var _ := Settle(entry);
      suspended := suspended - {c};
      effects := RunLoop();
      effects := [Resolve(c, entry.Val(), res.remaining, res.resetTime)] + effects;
    }

    method OnUndoDone(c: nat) returns (effects: seq<Effect>)
      requires Valid() && c in suspended && !suspended[c].at.ForIncrement?
      modifies this`drainTimer, this`processing, this`suspended, this`nextCall
      ensures old(Enabled(cfg, View(), UndoDone(c)))
      ensures Valid() && (View(), effects) == Step(cfg, old(View()), UndoDone(c))
    {
      hide Intact, Vals, Frames, Loop;
      FramesAt(suspended, c);
      FramesChange(suspended, c, suspended[c]);
      var blocked := suspended[c].at.ForBlockedUndo?;
      suspended := suspended - {c};
      if blocked {
        drainTimer := true;
        return [];
      }
      effects := RunLoop();
    }

    // ----- clearing and shutting down ----------------------------------------------------

    /** Walk the list, rejecting every waiter, and leave the queue empty and idle. */
    method ClearAll(code: Code) returns (effects: seq<Effect>)
      requires Valid()
      modifies this`queueHead, this`queueTail, this`queueLength, this`nodes, this`waitTimers, this`drainTimer,
               this`processing, known`prev, known`next
      ensures Valid() && (View(), effects) == ClearPending(old(View()), code)
    {
      hide Intact, Vals, Frames;
      drainTimer := false;
      effects := RejectWaiters(code);
      processing := false;
    }

    method RejectWaiters(code: Code) returns (effects: seq<Effect>)
      requires Intact()
      modifies this`queueHead, this`queueTail, this`queueLength, this`nodes, this`waitTimers, known`prev, known`next
      ensures Intact() && nodes == [] && effects == RejectAll(old(Vals(nodes)), code)
    {
      hide Linked, Chained, OthersLoose, Links, Vals, RejectAll, OnePerId, Distinct, Unhooked, Members;
      Parts();
      ghost var was, p := nodes, Links();
      NoneUnhooked(p, was);
      effects := WalkFrom(queueHead, p, was, code);
      Forget(p, was);
    }

    /** The list is given up once none of its entries points anywhere. */
    method Forget(ghost p: Pointers, ghost was: seq<QueueEntry>)
      requires OthersLoose(p, was) && Unhooked(p, Links(), was, |was|)
      requires OnePerId(known) && forall e :: e in known ==> e.id < nextId
      modifies this`queueHead, this`queueTail, this`queueLength, this`nodes, this`waitTimers
      ensures Intact() && nodes == []
    {
      hide Linked, Chained, OthersLoose, Links, OnePerId, Distinct, Unhooked, Members;
      queueHead, queueTail, queueLength, nodes := null, null, 0, [];
      waitTimers := {};
      AllUnhooked(p, Links(), was);
      Whole();
      NoMembers();
    }

    /** The walk from the head: `was` is the chain at the start. */
    method WalkFrom(head: QueueEntry?, ghost p: Pointers, ghost was: seq<QueueEntry>,
        code: Code) returns (effects: seq<Effect>)
      requires head == At(was, 0) && Distinct(was) && Chained(p, was) && Unhooked(p, Links(), was, 0)
      modifies this`waitTimers, known`prev, known`next
      ensures effects == RejectAll(Vals(was), code) && Unhooked(p, Links(), was, |was|)
    {
      hide Chained, Links, Vals, RejectAll, Distinct, Unhooked;
      NoneRejected(was, code);
      effects := [];
      var e := head;
      ghost var i := 0;
      while e != null
        invariant 0 <= i <= |was| && e == At(was, i)
        invariant effects == RejectAll(Vals(was[..i]), code)
        invariant Unhooked(p, Links(), was, i)
        decreases |was| - i
      {
        RejectedOne(was, i, code);
        effects := effects + [Reject(e.Val(), code)];
        e := ReleaseEntry(e, p, was, i);
        i := i + 1;
      }
      assert was[..i] == was;
    }

    /** Cancel an entry's timer and take it off the chain; the next one, as the old pointers have it. */
    method ReleaseEntry(e: QueueEntry, ghost p: Pointers, ghost was: seq<QueueEntry>,
        ghost i: nat) returns (next: QueueEntry?)
      requires i < |was| && e == was[i] && Distinct(was) && Chained(p, was) && Unhooked(p, Links(), was, i)
      modifies this`waitTimers, known`prev, known`next
      ensures next == At(was, i + 1) && Unhooked(p, Links(), was, i + 1)
    {
      hide Chained, Links, Distinct, Unhooked, UnhookedOne;
      ghost var q := Links();
      StepInto(p, q, was, i);
      NextOf(e);
      next := e.next;
      waitTimers := waitTimers - {e};
      Unhook(e);
      UnhookedNext(p, q, Links(), was, i);
    }

    lemma NextOf(e: QueueEntry)
      ensures e in known ==> Links().next[e] == e.next
    {
    }

    method Unhook(e: QueueEntry)
      requires e in known
      modifies known`prev, known`next
      ensures UnhookedOne(old(Links()), Links(), e)
    {
      e.prev := null;
      e.next := null;
    }

    /** After shutdown, clearing throws and changes nothing. */
    method Clear() returns (thrown: bool, effects: seq<Effect>)
      requires Valid()
      modifies this, known
      ensures Valid() && thrown == old(isShutdown)
      ensures (View(), effects) == if thrown then (old(View()), []) else Step(cfg, old(View()), Event.Clear)
    {
      hide Intact, Vals, Frames, ClearPending;
      if isShutdown {
        return true, [];
      }
      effects := ClearAll(QueueCleared);
      thrown := false;
    }

    /** Drain once; keep polling, or report and reject what is left. */
    method PollOnce(waiting: nat, pollsLeft: nat) returns (effects: seq<Effect>)
      requires Valid()
      modifies this, known
      ensures Valid() && (View(), effects) == Poll(old(View()), waiting, pollsLeft)
    {
      hide Intact, Vals, Frames, Drain, Loop, ClearPending;
      effects := RunDrain();
      HeadKnown();
      if pollsLeft > 0 && queueLength > 0 {
        ctl := Polling(waiting, pollsLeft);
        return;
      }
      var drained := Max(0, waiting - queueLength - shutdownQueueTimeoutUnlinks);
      var rejected := queueLength;
      var rejects := ClearAll(QueueShutdown);
      shutdownQueueTimeoutUnlinks := 0;
      ctl := Closed(waiting, rejected, drained);
      effects := effects + rejects + [ShutdownDone(rejected, drained)];
    }

    method Shutdown(drainTimeoutMs: int) returns (effects: seq<Effect>)
      requires Valid()
      modifies this, known
      ensures Valid() && (View(), effects) == Step(cfg, old(View()), Event.Shutdown(drainTimeoutMs))
    {
      hide Intact, Vals, Frames, Poll;
      HeadKnown();
      if isShutdown {
        effects := [ShutdownRepeated(shutdownQueueTimeoutUnlinks), ShutdownDone(0, 0)];
        shutdownQueueTimeoutUnlinks := 0;
        return;
      }
      shutdownQueueTimeoutUnlinks := 0;
      isShutdown := true;
      var waiting := queueLength;
      effects := PollOnce(waiting, Polls(drainTimeoutMs));
      effects := [ShutdownStarted(waiting)] + effects;
    }

    method OnPollTick() returns (effects: seq<Effect>)
      requires Valid() && ctl.Polling?
      modifies this, known
      ensures Valid() && (View(), effects) == Step(cfg, old(View()), PollTick)
    {
      hide Intact, Vals, Frames, Poll;
      effects := PollOnce(ctl.waiting, Max(0, ctl.pollsLeft - 1));
    }
  }
}
