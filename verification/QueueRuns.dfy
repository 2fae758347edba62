/**
 What holds of the waiting queue in every interleaving: no wakeup is lost, every
 request settles at most once, and successes settle in order.
 */
module QueueRuns {
  import opened Entries
  import opened QueueSpec

  // ----- no lost wakeup -----------------------------------------------------------

  /** Someone will look at the queue again: a drain is in flight or the retry timer is armed. */
  ghost predicate Awake(q: Q) {
    q.frames != map[] || q.timer
  }

  ghost predicate WakeupInv(q: Q) {
    (q.queue != [] || q.processing) ==> Awake(q)
  }

  lemma LoopWakes(q: Q)
    ensures WakeupInv(Loop(q).0)
  {
    if q.queue != [] {
      assert q.nextCall in Loop(q).0.frames;
    }
  }

  lemma DrainWakes(q: Q)
    requires q.processing ==> Awake(q)
    ensures WakeupInv(Drain(q).0)
  {
    LoopWakes(q.(processing := true));
  }

  lemma WakeupStep(cfg: Settings, q: Q, ev: Event)
    requires WakeupInv(q) && Enabled(cfg, q, ev)
    ensures WakeupInv(Step(cfg, q, ev).0)
  {
    match ev
    case RemoveTokens(key, cost) =>
      DrainWakes(q.(queue := q.queue + [Entry(q.nextId, key, cost)], nextId := q.nextId + 1));
    case WaitTimeout(e) =>
      var gone := q.(queue := Remove(q.queue, e), timeouts := if q.isShutdown then q.timeouts + 1 else q.timeouts);
      DrainWakes(gone);
      DrainWakes(gone.(timer := false, processing := false));
    case Retry => DrainWakes(q.(timer := false, processing := false));
    case Reply(c, res) =>
      LoopWakes(q.(queue := if q.queue == [] then [] else q.queue[1..], frames := q.frames - {c}));
      assert c in q.frames[c := AwaitStaleUndo(q.frames[c].entry)];
      assert c in q.frames[c := AwaitBlockedUndo(q.frames[c].entry)];
    case UndoDone(c) => LoopWakes(q.(frames := q.frames - {c}));
    case Clear =>
    case Shutdown(ms) => DrainWakes(q.(timeouts := 0, isShutdown := true));
    case PollTick => DrainWakes(q);
  }

  /** In every interleaving a non-empty queue has a drain in flight or a retry timer armed. */
  lemma {:induction false} NoLostWakeup(cfg: Settings, evs: seq<Event>)
    ensures WakeupInv(Exec(cfg, evs).0)
  {
    if evs != [] {
      NoLostWakeup(cfg, evs[..|evs| - 1]);
      var q := Exec(cfg, evs[..|evs| - 1]).0;
      if Enabled(cfg, q, evs[|evs| - 1]) {
        WakeupStep(cfg, q, evs[|evs| - 1]);
      }
    }
  }

  // ----- each request settles at most once ------------------------------------------

  function SettledBy(x: Effect, id: nat): (n: nat) {
    if (x.Resolve? || x.Reject?) && x.entry.id == id then 1 else 0
  }

  /** How many times the request was resolved or rejected. */
  function Settled(log: seq<Effect>, id: nat): (n: nat) {
    if log == [] then 0 else SettledBy(log[0], id) + Settled(log[1..], id)
  }

  function Waiting(queue: seq<Entry>, id: nat): (n: nat) {
    if queue == [] then 0 else (if queue[0].id == id then 1 else 0) + Waiting(queue[1..], id)
  }

  lemma {:induction false} SettledConcat(a: seq<Effect>, b: seq<Effect>, id: nat)
    ensures Settled(a + b, id) == Settled(a, id) + Settled(b, id)
  {
    if a == [] {
      assert a + b == b;
    } else {
      assert (a + b)[1..] == a[1..] + b;
      SettledConcat(a[1..], b, id);
    }
  }

  lemma {:induction false} WaitingSnoc(queue: seq<Entry>, e: Entry, id: nat)
    ensures Waiting(queue + [e], id) == Waiting(queue, id) + if e.id == id then 1 else 0
  {
    if queue != [] {
      assert (queue + [e])[1..] == queue[1..] + [e];
      WaitingSnoc(queue[1..], e, id);
    }
  }

  lemma {:induction false} WaitingRemove(queue: seq<Entry>, e: Entry, id: nat)
    requires e in queue
    ensures Waiting(Remove(queue, e), id) == Waiting(queue, id) - if e.id == id then 1 else 0
  {
    if queue[0] != e {
      WaitingRemove(queue[1..], e, id);
    }
  }

  lemma {:induction false} SettledRejectAll(queue: seq<Entry>, code: Code, id: nat)
    ensures Settled(RejectAll(queue, code), id) == Waiting(queue, id)
  {
    if queue != [] {
      assert RejectAll(queue, code)[1..] == RejectAll(queue[1..], code);
      SettledRejectAll(queue[1..], code, id);
    }
  }

  lemma DrainSettles(q: Q, id: nat)
    ensures var (d, effects) := Drain(q);
            && Settled(effects, id) == 0 && d.queue == q.queue && d.nextId == q.nextId
            && Settled(Loop(q).1, id) == 0
  {
  }

  /** A step settles exactly the requests that leave the queue. */
  lemma SettleStep(cfg: Settings, q: Q, ev: Event, id: nat)
    requires Enabled(cfg, q, ev)
    ensures var (next, effects) := Step(cfg, q, ev);
            Settled(effects, id) + Waiting(next.queue, id)
            == Waiting(q.queue, id) + if q.nextId <= id < next.nextId then 1 else 0
  {
    hide Loop, Drain;
    match ev
    case RemoveTokens(key, cost) =>
      WaitingSnoc(q.queue, Entry(q.nextId, key, cost), id);
      DrainSettles(q.(queue := q.queue + [Entry(q.nextId, key, cost)], nextId := q.nextId + 1), id);
    case WaitTimeout(e) =>
      WaitingRemove(q.queue, e, id);
      TimeoutSettles(q, e, id);
    case Retry => DrainSettles(q.(timer := false, processing := false), id);
    case Reply(c, res) => ReplySettles(cfg, q, c, res, id);
    case UndoDone(c) => DrainSettles(q.(frames := q.frames - {c}), id); LoopKeepsQueue(q.(frames := q.frames - {c}));
    case Clear => SettledRejectAll(q.queue, QueueCleared, id);
    case Shutdown(ms) =>
      if !q.isShutdown {
        var start := q.(timeouts := 0, isShutdown := true);
        PollSettles(start, |q.queue|, Polls(ms), id);
        SettledConcat([ShutdownStarted(|q.queue|)], Poll(start, |q.queue|, Polls(ms)).1, id);
      } else {
        assert Settled([ShutdownRepeated(q.timeouts), ShutdownDone(0, 0)], id) == Settled([ShutdownDone(0, 0)], id);
      }
    case PollTick => PollSettles(q, q.ctl.waiting, Max(0, q.ctl.pollsLeft - 1), id);
  }

  lemma LoopKeepsQueue(q: Q)
    ensures Loop(q).0.queue == q.queue && Loop(q).0.nextId == q.nextId
  {
  }

  lemma TimeoutSettles(q: Q, e: Entry, id: nat)
    ensures var (next, effects) := OnWaitTimeout(q, e);
            && Settled(effects, id) == (if e.id == id then 1 else 0)
            && next.queue == Remove(q.queue, e) && next.nextId == q.nextId
  {
    hide Drain, Loop, Remove;
    var gone := q.(queue := Remove(q.queue, e), timeouts := if q.isShutdown then q.timeouts + 1 else q.timeouts);
    var idle := if q.queue != [] && q.queue[0] == e && q.timer then gone.(timer := false, processing := false)
      else gone;
    DrainSettles(idle, id);
    SettledConcat([Reject(e, QueueTimeout)], Drain(idle).1, id);
  }

  lemma ReplySettles(cfg: Settings, q: Q, c: nat, res: Result, id: nat)
    requires c in q.frames
    ensures var (next, effects) := OnReply(cfg, q, c, res);
            Settled(effects, id) + Waiting(next.queue, id) == Waiting(q.queue, id) && next.nextId == q.nextId
  {
    hide Loop;
    var e := q.frames[c].entry;
    if q.queue != [] && q.queue[0] == e && !res.isBlocked {
      var rest := q.(queue := q.queue[1..], frames := q.frames - {c});
      LoopKeepsQueue(rest);
      DrainSettles(rest, id);
      SettledConcat([Resolve(c, e, res.remaining, res.resetTime)], Loop(rest).1, id);
    }
  }

  lemma PollSettles(q: Q, waiting: nat, pollsLeft: nat, id: nat)
    ensures var (next, effects) := Poll(q, waiting, pollsLeft);
            Settled(effects, id) + Waiting(next.queue, id) == Waiting(q.queue, id) && next.nextId == q.nextId
  {
    hide Drain, Loop;
    var (d, effects) := Drain(q);
    DrainSettles(q, id);
    if !(pollsLeft > 0 && d.queue != []) {
      var rejects := RejectAll(d.queue, QueueShutdown);
      SettledRejectAll(d.queue, QueueShutdown, id);
      SettledConcat(effects, rejects, id);
      SettledConcat(effects + rejects, [ShutdownDone(|d.queue|, Max(0, waiting - |d.queue| - d.timeouts))], id);
    }
  }

  /**
   Every accepted request is in exactly one place: still waiting, or settled once. So no promise
   settles twice, and none is dropped.
   */
  lemma {:induction false} SettledOnce(cfg: Settings, evs: seq<Event>, id: nat)
    ensures var (q, log) := Exec(cfg, evs);
            Settled(log, id) + Waiting(q.queue, id) == if id < q.nextId then 1 else 0
  {
    if evs != [] {
      hide Step;
      SettledOnce(cfg, evs[..|evs| - 1], id);
      var (q, log) := Exec(cfg, evs[..|evs| - 1]);
      if Enabled(cfg, q, evs[|evs| - 1]) {
        var (next, effects) := Step(cfg, q, evs[|evs| - 1]);
        SettleStep(cfg, q, evs[|evs| - 1], id);
        IdsGrow(cfg, q, evs[|evs| - 1]);
        SettledConcat(log, effects, id);
      }
    }
  }

  lemma IdsGrow(cfg: Settings, q: Q, ev: Event)
    requires Enabled(cfg, q, ev)
    ensures q.nextId <= Step(cfg, q, ev).0.nextId
  {
  }

  // ----- successes settle in enqueue order --------------------------------------------

  /** Ids of `queue` increase, starting above `lo` and staying below `hi`. */
  predicate Ascending(lo: int, queue: seq<Entry>, hi: int)
    decreases |queue|
  {
    lo < hi && (queue == [] || (lo < queue[0].id && Ascending(queue[0].id, queue[1..], hi)))
  }

  lemma {:induction false} AscendingSnoc(lo: int, queue: seq<Entry>, hi: nat, e: Entry)
    requires Ascending(lo, queue, hi) && e.id == hi
    ensures Ascending(lo, queue + [e], hi + 1)
    decreases |queue|
  {
    if queue != [] {
      AscendingSnoc(queue[0].id, queue[1..], hi, e);
      assert (queue + [e])[1..] == queue[1..] + [e];
    }
  }

  lemma {:induction false} AscendingRemove(lo: int, queue: seq<Entry>, hi: int, e: Entry)
    requires Ascending(lo, queue, hi)
    ensures Ascending(lo, Remove(queue, e), hi)
    decreases |queue|
  {
    if queue != [] {
      AscendingRemove(queue[0].id, queue[1..], hi, e);
    }
  }

  /** The id of the last request that was resolved; -1 before the first. */
  function LastResolved(log: seq<Effect>): (id: int) {
    if log == [] then -1
    else if log[|log| - 1].Resolve? then log[|log| - 1].entry.id
    else LastResolved(log[..|log| - 1])
  }

  predicate InOrder(log: seq<Effect>) {
    log == [] || (InOrder(log[..|log| - 1]) &&
                  (log[|log| - 1].Resolve? ==> LastResolved(log[..|log| - 1]) < log[|log| - 1].entry.id))
  }

  predicate NoResolve(effects: seq<Effect>) {
    forall i :: 0 <= i < |effects| ==> !effects[i].Resolve?
  }

  lemma {:induction false} QuietEffects(log: seq<Effect>, effects: seq<Effect>)
    requires NoResolve(effects)
    ensures LastResolved(log + effects) == LastResolved(log)
    ensures InOrder(log) ==> InOrder(log + effects)
  {
    if effects == [] {
      assert log + effects == log;
    } else {
      var init := effects[..|effects| - 1];
      QuietEffects(log, init);
      assert (log + effects)[..|log + effects| - 1] == log + init;
    }
  }

  lemma {:induction false} RejectAllQuiet(queue: seq<Entry>, code: Code)
    ensures NoResolve(RejectAll(queue, code))
  {
    if queue != [] {
      RejectAllQuiet(queue[1..], code);
    }
  }

  lemma DrainOrder(q: Q)
    ensures NoResolve(Drain(q).1) && NoResolve(Loop(q).1)
    ensures Drain(q).0.queue == Loop(q).0.queue == q.queue && Drain(q).0.nextId == Loop(q).0.nextId == q.nextId
  {
  }

  lemma PollOrder(q: Q, waiting: nat, pollsLeft: nat)
    ensures var (next, effects) := Poll(q, waiting, pollsLeft);
            NoResolve(effects) && next.nextId == q.nextId && (next.queue == [] || next.queue == q.queue)
  {
    hide Drain, Loop;
    DrainOrder(q);
    RejectAllQuiet(Drain(q).0.queue, QueueShutdown);
  }

  lemma OrderStep(cfg: Settings, q: Q, log: seq<Effect>, ev: Event)
    requires Enabled(cfg, q, ev)
    requires InOrder(log) && Ascending(LastResolved(log), q.queue, q.nextId)
    ensures var (next, effects) := Step(cfg, q, ev);
            InOrder(log + effects) && Ascending(LastResolved(log + effects), next.queue, next.nextId)
  {
    if ev.Reply? && Head(q) == Some(q.frames[ev.call].entry) && !ev.result.isBlocked {
      ResolveStep(cfg, q, log, ev.call, ev.result);
    } else {
      QuietStep(cfg, q, ev, LastResolved(log));
      hide Step;
      QuietEffects(log, Step(cfg, q, ev).1);
    }
  }

  lemma ResolveStep(cfg: Settings, q: Q, log: seq<Effect>, c: nat, res: Result)
    requires c in q.frames && Head(q) == Some(q.frames[c].entry) && !res.isBlocked
    requires InOrder(log) && Ascending(LastResolved(log), q.queue, q.nextId)
    ensures var (next, effects) := OnReply(cfg, q, c, res);
            InOrder(log + effects) && Ascending(LastResolved(log + effects), next.queue, next.nextId)
  {
    var rest := q.(queue := q.queue[1..], frames := q.frames - {c});
    DrainOrder(rest);
    hide Loop, Drain;
    var won := log + [Resolve(c, q.queue[0], res.remaining, res.resetTime)];
    assert won[..|log|] == log;
    assert log + OnReply(cfg, q, c, res).1 == won + Loop(rest).1;
    QuietEffects(won, Loop(rest).1);
  }

  function Head(q: Q): (e: Option<Entry>) {
    if q.queue == [] then None else Some(q.queue[0])
  }

  /** Every other step resolves nothing and keeps the queue's ids increasing. */
  lemma QuietStep(cfg: Settings, q: Q, ev: Event, lo: int)
    requires Enabled(cfg, q, ev) && Ascending(lo, q.queue, q.nextId)
    requires ev.Reply? ==> Head(q) != Some(q.frames[ev.call].entry) || ev.result.isBlocked
    ensures var (next, effects) := Step(cfg, q, ev);
            NoResolve(effects) && Ascending(lo, next.queue, next.nextId)
  {
    hide Loop, Drain, Poll;
    match ev
    case RemoveTokens(key, cost) =>
      var e := Entry(q.nextId, key, cost);
      AscendingSnoc(lo, q.queue, q.nextId, e);
      DrainOrder(q.(queue := q.queue + [e], nextId := q.nextId + 1));
    case WaitTimeout(e) =>
      AscendingRemove(lo, q.queue, q.nextId, e);
      var gone := q.(queue := Remove(q.queue, e), timeouts := if q.isShutdown then q.timeouts + 1 else q.timeouts);
      DrainOrder(gone);
      DrainOrder(gone.(timer := false, processing := false));
    case Retry => DrainOrder(q.(timer := false, processing := false));
    case Reply(c, res) =>
    case UndoDone(c) => DrainOrder(q.(frames := q.frames - {c}));
    case Clear => RejectAllQuiet(q.queue, QueueCleared);
    case Shutdown(ms) => PollOrder(q.(timeouts := 0, isShutdown := true), |q.queue|, Polls(ms));
    case PollTick => PollOrder(q, q.ctl.waiting, Max(0, q.ctl.pollsLeft - 1));
  }

  /** Successes settle in enqueue order, even when two drains overlap. */
  lemma {:induction false} ResolvedInOrder(cfg: Settings, evs: seq<Event>)
    ensures var (q, log) := Exec(cfg, evs);
            InOrder(log) && Ascending(LastResolved(log), q.queue, q.nextId)
  {
    if evs != [] {
      hide Step;
      ResolvedInOrder(cfg, evs[..|evs| - 1]);
      var (q, log) := Exec(cfg, evs[..|evs| - 1]);
      if Enabled(cfg, q, evs[|evs| - 1]) {
        OrderStep(cfg, q, log, evs[|evs| - 1]);
      }
    }
  }
}
