/**
 What the waiting queue promises to those who use it: who is let in and who is refused, what
 ends a wait, and that waiting ends well: from every reachable state the whole queue can be served.
 */
module QueueService {
  import opened Entries
  import opened QueueSpec
  import opened QueueRuns

  // ----- who is let in ----------------------------------------------------------------------

  predicate Full(cfg: Settings, q: Q) {
    cfg.maxQueueSize.Some? && cfg.maxQueueSize.value <= |q.queue|
  }

  /**
   A request is accepted exactly when the queue is open, has room and can ever grant the cost; it goes last. Every
   other request changes nothing and is refused with the first reason that applies.
   */
  lemma AcceptedIff(cfg: Settings, q: Q, key: Key, cost: int)
    ensures var (next, effects) := Step(cfg, q, RemoveTokens(key, cost));
            && (next.nextId == q.nextId + 1 <==> !q.isShutdown && !Full(cfg, q) && 1 <= cost <= cfg.maxRequests)
            && (next.nextId == q.nextId + 1 ==>
                  && next.queue == q.queue + [Entry(q.nextId, key, cost)]
                  && forall code :: Refuse(code) !in effects)
            && (next.nextId != q.nextId + 1 ==> next == q && |effects| == 1)
            && (effects == [Refuse(QueueShutdown)] <==> q.isShutdown)
            && (effects == [Refuse(QueueFull)] <==> !q.isShutdown && Full(cfg, q))
            && (effects == [Refuse(InvalidCost)] <==> !q.isShutdown && !Full(cfg, q) && cost < 1)
            && (effects == [Refuse(CostExceedsLimit)] <==>
                  !q.isShutdown && !Full(cfg, q) && cost >= 1 && cost > cfg.maxRequests)
  {
  }

  /** No step but an accepted request makes the queue longer. */
  lemma StepKeepsBound(cfg: Settings, q: Q, ev: Event)
    requires Enabled(cfg, q, ev)
    ensures |Step(cfg, q, ev).0.queue| <= |q.queue| + if ev.RemoveTokens? && !Full(cfg, q) then 1 else 0
  {
    hide Loop, Drain, RejectAll, Remove;
    match ev
    case RemoveTokens(key, cost) =>
      DrainOrder(q.(queue := q.queue + [Entry(q.nextId, key, cost)], nextId := q.nextId + 1));
    case WaitTimeout(e) => TimeoutSettles(q, e, 0);
    case Retry => DrainOrder(q.(timer := false, processing := false));
    case Reply(c, res) =>
      if q.queue != [] {
        DrainOrder(q.(queue := q.queue[1..], frames := q.frames - {c}));
      }
    case UndoDone(c) => DrainOrder(q.(frames := q.frames - {c}));
    case Clear =>
    case Shutdown(ms) => PollOrder(q.(timeouts := 0, isShutdown := true), |q.queue|, Polls(ms));
    case PollTick => PollOrder(q, q.ctl.waiting, Max(0, q.ctl.pollsLeft - 1));
  }

  /** In every run the queue stays within its bound. */
  lemma {:induction false} NeverOverfull(cfg: Settings, evs: seq<Event>)
    requires cfg.maxQueueSize.Some?
    ensures |Exec(cfg, evs).0.queue| <= cfg.maxQueueSize.value
  {
    if evs != [] {
      hide Step;
      NeverOverfull(cfg, evs[..|evs| - 1]);
      var q := Exec(cfg, evs[..|evs| - 1]).0;
      if Enabled(cfg, q, evs[|evs| - 1]) {
        StepKeepsBound(cfg, q, evs[|evs| - 1]);
      }
    }
  }

  // ----- what ends a wait ---------------------------------------------------------------------

  lemma {:induction false} RejectAllIs(queue: seq<Entry>, code: Code, e: Entry, other: Code)
    ensures Reject(e, other) in RejectAll(queue, code) <==> e in queue && other == code
  {
    if queue != [] {
      RejectAllIs(queue[1..], code, e, other);
    }
  }

  lemma DrainRejectsNobody(q: Q, e: Entry, code: Code)
    ensures Reject(e, code) !in Drain(q).1 && Reject(e, code) !in Loop(q).1
  {
  }

  lemma PollRejects(q: Q, waiting: nat, pollsLeft: nat, e: Entry, code: Code)
    ensures var (next, effects) := Poll(q, waiting, pollsLeft);
            && (next.ctl.Closed? ==> next.queue == [])
            && (Reject(e, code) in effects <==>
                  (pollsLeft == 0 || q.queue == []) && e in q.queue && code == QueueShutdown)
            && (next.ctl.Closed? <==> pollsLeft == 0 || q.queue == [])
            && (!next.ctl.Closed? ==> next.ctl == Polling(waiting, pollsLeft) && next.queue == q.queue)
  {
    hide Drain, Loop, RejectAll;
    DrainOrder(q);
    DrainRejectsNobody(q, e, code);
    RejectAllIs(Drain(q).0.queue, QueueShutdown, e, code);
  }

  /** The step reports the end of a shutdown that is under way or begins with it. */
  predicate Ends(cfg: Settings, q: Q, ev: Event)
    requires Enabled(cfg, q, ev)
  {
    Step(cfg, q, ev).0.ctl.Closed? && (ev.PollTick? || (ev.Shutdown? && !q.isShutdown))
  }

  /** A waiter is rejected by its own timeout, by a clear, or by the end of a shutdown, and with the code of that. */
  lemma RejectedIff(cfg: Settings, q: Q, ev: Event, e: Entry, code: Code)
    requires Enabled(cfg, q, ev)
    ensures Reject(e, code) in Step(cfg, q, ev).1 <==>
            || (ev == WaitTimeout(e) && code == QueueTimeout)
            || (ev.Clear? && e in q.queue && code == QueueCleared)
            || (Ends(cfg, q, ev) && e in q.queue && code == QueueShutdown)
  {
    hide Drain, Loop, RejectAll, Poll, Remove;
    match ev
    case RemoveTokens(key, cost) =>
      DrainRejectsNobody(q.(queue := q.queue + [Entry(q.nextId, key, cost)], nextId := q.nextId + 1), e, code);
    case WaitTimeout(x) =>
      var gone := q.(queue := Remove(q.queue, x), timeouts := if q.isShutdown then q.timeouts + 1 else q.timeouts);
      DrainRejectsNobody(gone, e, code);
      DrainRejectsNobody(gone.(timer := false, processing := false), e, code);
    case Retry => DrainRejectsNobody(q.(timer := false, processing := false), e, code);
    case Reply(c, res) =>
      if q.queue != [] {
        DrainRejectsNobody(q.(queue := q.queue[1..], frames := q.frames - {c}), e, code);
      }
    case UndoDone(c) => DrainRejectsNobody(q.(frames := q.frames - {c}), e, code);
    case Clear => RejectAllIs(q.queue, QueueCleared, e, code);
    case Shutdown(ms) => PollRejects(q.(timeouts := 0, isShutdown := true), |q.queue|, Polls(ms), e, code);
    case PollTick => PollRejects(q, q.ctl.waiting, Max(0, q.ctl.pollsLeft - 1), e, code);
  }

  /**
   A waiter is resolved exactly by an allowing answer to a charge made for it while it is the head, with the figures
   of that answer.
   */
  lemma ResolvedIff(cfg: Settings, q: Q, ev: Event, c: nat, e: Entry, remaining: int, resetTime: int)
    requires Enabled(cfg, q, ev)
    ensures Resolve(c, e, remaining, resetTime) in Step(cfg, q, ev).1 <==>
            && ev.Reply? && ev.call == c && !ev.result.isBlocked && q.frames[c].entry == e
            && q.queue != [] && q.queue[0] == e
            && ev.result.remaining == remaining && ev.result.resetTime == resetTime
  {
    hide Drain, Loop, RejectAll, Poll;
    if ev.Reply? && Head(q) == Some(q.frames[ev.call].entry) && !ev.result.isBlocked {
      DrainOrder(q.(queue := q.queue[1..], frames := q.frames - {ev.call}));
      assert Step(cfg, q, ev).1[0].Resolve?;
    } else {
      QuietEver(cfg, q, ev);
      hide Step;
    }
  }

  lemma QuietEver(cfg: Settings, q: Q, ev: Event)
    requires Enabled(cfg, q, ev)
    requires ev.Reply? ==> Head(q) != Some(q.frames[ev.call].entry) || ev.result.isBlocked
    ensures NoResolve(Step(cfg, q, ev).1)
  {
    hide Loop, Drain, Poll;
    match ev
    case RemoveTokens(key, cost) =>
      DrainOrder(q.(queue := q.queue + [Entry(q.nextId, key, cost)], nextId := q.nextId + 1));
    case WaitTimeout(e) =>
      var gone := q.(queue := Remove(q.queue, e), timeouts := if q.isShutdown then q.timeouts + 1 else q.timeouts);
      DrainOrder(gone);
      DrainOrder(gone.(timer := false, processing := false));
    case Retry => DrainOrder(q.(timer := false, processing := false));
    case Reply(c, res) =>
    case UndoDone(c) => DrainOrder(q.(frames := q.frames - {c}));
    case Clear => RejectAllQuiet(q.queue, QueueCleared);
    case Shutdown(ms) => PollOrder(q.(timeouts := 0, isShutdown := true), |q.queue|, Polls(ms));
    case PollTick => PollOrder(q, q.ctl.waiting, Max(0, q.ctl.pollsLeft - 1));
  }

  /**
   A shutdown with nothing to wait for, or no time to, ends at once; any other polls every 10 ms until its time is up
   or the queue is empty. Until then nobody is turned away, afterwards nobody waits.
   */
  lemma ShutdownEndsIff(cfg: Settings, q: Q, ev: Event)
    requires Enabled(cfg, q, ev) && (ev.PollTick? || (ev.Shutdown? && !q.isShutdown))
    ensures var next := Step(cfg, q, ev).0;
            && (ev.PollTick? ==> (next.ctl.Closed? <==> q.ctl.pollsLeft <= 1 || q.queue == []))
            && (ev.Shutdown? ==> (next.ctl.Closed? <==> ev.drainTimeoutMs <= 0 || q.queue == []))
            && (if next.ctl.Closed? then next.queue == []
                else && next.queue == q.queue && next.ctl.Polling?
                     && (ev.PollTick? ==> next.ctl == Polling(q.ctl.waiting, q.ctl.pollsLeft - 1))
                     && (ev.Shutdown? ==>
                           && next.ctl.waiting == |q.queue|
                           && 10 * (next.ctl.pollsLeft - 1) < ev.drainTimeoutMs <= 10 * next.ctl.pollsLeft))
  {
    hide Poll;
    var e, code := Entry(0, Key(""), 1), QueueShutdown;
    if ev.PollTick? {
      PollRejects(q, q.ctl.waiting, Max(0, q.ctl.pollsLeft - 1), e, code);
    } else {
      PollRejects(q.(timeouts := 0, isShutdown := true), |q.queue|, Polls(ev.drainTimeoutMs), e, code);
    }
  }

  // ----- waiting ends well ------------------------------------------------------------------------

  /** The run goes on from `q`. */
  ghost function Onward(cfg: Settings, q: Q, evs: seq<Event>): (r: (Q, seq<Effect>))
    decreases |evs|
  {
    if evs == [] then (q, [])
    else if !Enabled(cfg, q, evs[0]) then Onward(cfg, q, evs[1..])
    else
      var (next, effects) := Step(cfg, q, evs[0]);
      var (r, more) := Onward(cfg, next, evs[1..]);
      (r, effects + more)
  }

  /** The store answers and undoes, and the retry timer fires; nobody else acts. */
  ghost predicate StoreOnly(evs: seq<Event>) {
    forall i :: 0 <= i < |evs| ==> evs[i].Reply? || evs[i].UndoDone? || evs[i].Retry?
  }

  function Resolved(log: seq<Effect>): (es: seq<Entry>) {
    if log == [] then [] else (if log[0].Resolve? then [log[0].entry] else []) + Resolved(log[1..])
  }

  lemma {:induction false} ResolvedConcat(a: seq<Effect>, b: seq<Effect>)
    ensures Resolved(a + b) == Resolved(a) + Resolved(b)
  {
    if a == [] {
      assert a + b == b;
    } else {
      assert (a + b)[1..] == a[1..] + b;
      ResolvedConcat(a[1..], b);
    }
  }

  lemma {:induction false} OnwardConcat(cfg: Settings, q: Q, a: seq<Event>, b: seq<Event>)
    ensures var (mid, log) := Onward(cfg, q, a);
            var (r, more) := Onward(cfg, mid, b);
            Onward(cfg, q, a + b) == (r, log + more)
    decreases |a|
  {
    hide Step;
    if a == [] {
      assert a + b == b;
      assert [] + Onward(cfg, q, b).1 == Onward(cfg, q, b).1;
    } else {
      assert (a + b)[0] == a[0] && (a + b)[1..] == a[1..] + b;
      if Enabled(cfg, q, a[0]) {
        var (next, effects) := Step(cfg, q, a[0]);
        OnwardConcat(cfg, next, a[1..], b);
        var (mid, log) := Onward(cfg, next, a[1..]);
        assert effects + (log + Onward(cfg, mid, b).1) == effects + log + Onward(cfg, mid, b).1;
      } else {
        OnwardConcat(cfg, q, a[1..], b);
      }
    }
  }

  /** A drain awaits the store's answer for the head. */
  ghost predicate Charging(q: Q, c: nat) {
    q.queue != [] && c in q.frames && q.frames[c] == AwaitIncrement(q.queue[0])
  }

  lemma LoopCharges(q: Q)
    requires q.queue != []
    ensures Charging(Loop(q).0, q.nextCall) && Loop(q).0.queue == q.queue && Resolved(Loop(q).1) == []
  {
  }

  lemma OneStep(cfg: Settings, q: Q, ev: Event)
    requires Enabled(cfg, q, ev)
    ensures Onward(cfg, q, [ev]) == Step(cfg, q, ev)
  {
    hide Step;
    var (next, effects) := Step(cfg, q, ev);
    assert Onward(cfg, next, [ev][1..]) == (next, []);
    assert effects + [] == effects;
  }

  lemma TwoSteps(cfg: Settings, q: Q, a: Event, b: Event)
    requires Enabled(cfg, q, a) && Enabled(cfg, Step(cfg, q, a).0, b)
    ensures Onward(cfg, q, [a, b]) ==
            (Step(cfg, Step(cfg, q, a).0, b).0, Step(cfg, q, a).1 + Step(cfg, Step(cfg, q, a).0, b).1)
  {
    hide Step;
    assert [a, b] == [a] + [b];
    OnwardConcat(cfg, q, [a], [b]);
    OneStep(cfg, q, a);
    OneStep(cfg, Step(cfg, q, a).0, b);
  }

  const ALLOWED := Result(0, 0, 0, false)

  /** An awake queue gets round to charging its head. */
  lemma CanCharge(cfg: Settings, q: Q) returns (evs: seq<Event>, c: nat)
    requires q.queue != [] && Awake(q)
    ensures StoreOnly(evs)
    ensures var (r, log) := Onward(cfg, q, evs); Charging(r, c) && r.queue == q.queue && Resolved(log) == []
  {
    hide Loop;
    if q.timer {
      evs, c := [Retry], q.nextCall;
      OneStep(cfg, q, Retry);
      LoopCharges(q.(timer := false, processing := true));
    } else {
      c :| c in q.frames;
      var rest := q.(frames := q.frames - {c});
      LoopCharges(rest);
      match q.frames[c] {
        case AwaitIncrement(e) =>
          if e == q.queue[0] {
            evs := [];
          } else {
            evs := [Reply(c, ALLOWED), UndoDone(c)];
            StaleGoesOn(cfg, q, c);
            c := q.nextCall;
          }
        case AwaitStaleUndo(_) =>
          evs := [UndoDone(c)];
          OneStep(cfg, q, UndoDone(c));
          c := q.nextCall;
        case AwaitBlockedUndo(_) =>
          evs := [UndoDone(c), Retry];
          BlockedGoesOn(cfg, q, c);
          c := q.nextCall;
      }
    }
  }

  lemma StaleGoesOn(cfg: Settings, q: Q, c: nat)
    requires q.queue != [] && c in q.frames && q.frames[c].AwaitIncrement? && q.frames[c].entry != q.queue[0]
    ensures var (r, log) := Onward(cfg, q, [Reply(c, ALLOWED), UndoDone(c)]);
            Charging(r, q.nextCall) && r.queue == q.queue && Resolved(log) == []
  {
    hide Loop;
    var (mid, effects) := Step(cfg, q, Reply(c, ALLOWED));
    TwoSteps(cfg, q, Reply(c, ALLOWED), UndoDone(c));
    var rest := q.(frames := q.frames - {c});
    assert mid.frames - {c} == q.frames - {c};
    LoopCharges(rest);
    assert effects == [UndoCall(cfg, c, q.frames[c].entry, false)];
    assert Resolved(effects) == [] by { assert effects[1..] == []; }
    ResolvedConcat(effects, Loop(rest).1);
  }

  lemma BlockedGoesOn(cfg: Settings, q: Q, c: nat)
    requires q.queue != [] && c in q.frames && q.frames[c].AwaitBlockedUndo?
    ensures var (r, log) := Onward(cfg, q, [UndoDone(c), Retry]);
            Charging(r, q.nextCall) && r.queue == q.queue && Resolved(log) == []
  {
    hide Loop;
    TwoSteps(cfg, q, UndoDone(c), Retry);
    var rest := q.(frames := q.frames - {c}, timer := false, processing := true);
    LoopCharges(rest);
    assert [] + Loop(rest).1 == Loop(rest).1;
  }

  /** One allowing answer serves the head, and the next one in line is charged. */
  lemma OneServed(cfg: Settings, q: Q, c: nat)
    requires Charging(q, c)
    ensures var (r, log) := Onward(cfg, q, [Reply(c, ALLOWED)]);
            && r.queue == q.queue[1..] && Resolved(log) == [q.queue[0]]
            && (r.queue != [] ==> Charging(r, q.nextCall))
  {
    hide Loop;
    var rest := q.(queue := q.queue[1..], frames := q.frames - {c});
    var won := [Resolve(c, q.queue[0], 0, 0)];
    OneStep(cfg, q, Reply(c, ALLOWED));
    DrainOrder(rest);
    assert Resolved(won) == [q.queue[0]] by { assert won[1..] == []; }
    hide Resolved;
    ResolvedConcat(won, Loop(rest).1);
    if rest.queue == [] {
      EmptyLoop(rest);
    } else {
      LoopCharges(rest);
    }
  }

  /** From a charged head on, allowing answers alone serve the whole queue, in order. */
  lemma {:induction false} ChargedServes(cfg: Settings, q: Q, c: nat) returns (evs: seq<Event>)
    requires Charging(q, c)
    ensures StoreOnly(evs)
    ensures var (r, log) := Onward(cfg, q, evs); r.queue == [] && Resolved(log) == q.queue
    decreases |q.queue|
  {
    hide Onward, Resolved;
    OneServed(cfg, q, c);
    evs := [Reply(c, ALLOWED)];
    var (next, log) := Onward(cfg, q, evs);
    assert q.queue == [q.queue[0]] + q.queue[1..];
    if next.queue != [] {
      var more := ChargedServes(cfg, next, q.nextCall);
      OnwardConcat(cfg, q, evs, more);
      ResolvedConcat(log, Onward(cfg, next, more).1);
      evs := evs + more;
    }
  }

  lemma EmptyLoop(q: Q)
    requires q.queue == []
    ensures Loop(q).1 == [] && Loop(q).0.queue == [] && Resolved(Loop(q).1) == []
  {
  }

  /**
   From every reachable state, overlapping drains and shutdowns under way included: if from now on the store lets
   requests through, its answers and the retry timer alone resolve everybody who waits, in order.
   */
  lemma EveryoneCanBeServed(cfg: Settings, evs: seq<Event>) returns (more: seq<Event>)
    ensures StoreOnly(more)
    ensures var q := Exec(cfg, evs).0;
            var (r, log) := Onward(cfg, q, more); r.queue == [] && Resolved(log) == q.queue
  {
    hide Exec, Onward, Loop;
    var q := Exec(cfg, evs).0;
    NoLostWakeup(cfg, evs);
    if q.queue == [] {
      more := [];
      assert Onward(cfg, q, []) == (q, []) by { NothingHappens(cfg, q); }
    } else {
      var first, c := CanCharge(cfg, q);
      var mid := Onward(cfg, q, first).0;
      var rest := ChargedServes(cfg, mid, c);
      more := first + rest;
      OnwardConcat(cfg, q, first, rest);
      ResolvedConcat(Onward(cfg, q, first).1, Onward(cfg, mid, rest).1);
    }
  }

  lemma NothingHappens(cfg: Settings, q: Q)
    ensures Onward(cfg, q, []) == (q, [])
  {
  }
}
