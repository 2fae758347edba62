/**
 What a shutdown of the waiting queue reports. In every interleaving the requests that
 were waiting when it began are drained, timed out or rejected, each counted once, and
 the reported `drained` is the true number unless a waiter times out meanwhile and a
 repeated shutdown call makes the queue forget it.
 */
module QueueShutdown {
  import opened Entries
  import opened QueueSpec
  import opened QueueRuns

  /** What happened since shutdown began: requests resolved, requests timed out, timeouts a repeated call forgot. */
  datatype Tally = Tally(resolved: nat, timedOut: nat, forgotten: nat)

  function Count(t: Tally, x: Effect): (r: Tally) {
    match x
    case ShutdownStarted(_) => Tally(0, 0, 0)
    case Resolve(_, _, _, _) => t.(resolved := t.resolved + 1)
    case Reject(_, code) => if code == QueueTimeout then t.(timedOut := t.timedOut + 1) else t
    case ShutdownRepeated(n) => t.(forgotten := t.forgotten + n)
    case _ => t
  }

  function Tallied(log: seq<Effect>): (t: Tally) {
    if log == [] then Tally(0, 0, 0) else Count(Tallied(log[..|log| - 1]), log[|log| - 1])
  }

  lemma TalliedSnoc(log: seq<Effect>, x: Effect)
    ensures Tallied(log + [x]) == Count(Tallied(log), x)
  {
    assert (log + [x])[..|log|] == log;
  }

  predicate Uncounted(x: Effect) {
    !(x.ShutdownStarted? || x.Resolve? || x.ShutdownRepeated? || (x.Reject? && x.code == QueueTimeout))
  }

  predicate Neutral(effects: seq<Effect>) {
    forall i :: 0 <= i < |effects| ==> Uncounted(effects[i])
  }

  lemma {:induction false} NeutralKeeps(log: seq<Effect>, effects: seq<Effect>)
    requires Neutral(effects)
    ensures Tallied(log + effects) == Tallied(log)
  {
    if effects == [] {
      assert log + effects == log;
    } else {
      var init := effects[..|effects| - 1];
      NeutralKeeps(log, init);
      assert (log + effects)[..|log + effects| - 1] == log + init;
    }
  }

  lemma {:induction false} RejectAllNeutral(queue: seq<Entry>, code: Code)
    requires code != QueueTimeout
    ensures Neutral(RejectAll(queue, code))
  {
    if queue != [] {
      RejectAllNeutral(queue[1..], code);
    }
  }

  ghost predicate Adds(q: Q, log: seq<Effect>) {
    var t := Tallied(log);
    match q.ctl
    case Open => !q.isShutdown
    case Polling(waiting, _) =>
      && q.isShutdown
      && t.resolved + t.timedOut + |q.queue| == waiting
      && q.timeouts + t.forgotten == t.timedOut
    case Closed(waiting, rejected, drained) =>
      && q.isShutdown && q.queue == [] && q.timeouts == 0
      && t.resolved + t.timedOut + rejected == waiting
      && drained == t.resolved + t.forgotten
  }

  lemma DrainNeutral(q: Q)
    ensures Neutral(Drain(q).1) && Neutral(Loop(q).1)
    ensures var (d, l) := (Drain(q).0, Loop(q).0);
            && d.queue == l.queue == q.queue && d.ctl == l.ctl == q.ctl
            && d.isShutdown == l.isShutdown == q.isShutdown && d.timeouts == l.timeouts == q.timeouts
  {
  }

  /** The decisive step: polling goes on with the same figures, or the report is made from them. */
  lemma PollAdds(q: Q, log: seq<Effect>, waiting: nat, pollsLeft: nat)
    requires q.isShutdown
    requires var t := Tallied(log);
             t.resolved + t.timedOut + |q.queue| == waiting && q.timeouts + t.forgotten == t.timedOut
    ensures var (next, effects) := Poll(q, waiting, pollsLeft);
            Adds(next, log + effects)
  {
    hide Drain, Loop, Tallied, Neutral;
    var (d, effects) := Drain(q);
    DrainNeutral(q);
    NeutralKeeps(log, effects);
    if !(pollsLeft > 0 && d.queue != []) {
      var rejects := RejectAll(d.queue, QueueShutdown);
      RejectAllNeutral(d.queue, QueueShutdown);
      NeutralKeeps(log + effects, rejects);
      var done := ShutdownDone(|d.queue|, Max(0, waiting - |d.queue| - d.timeouts));
      TalliedSnoc(log + effects + rejects, done);
      assert log + Poll(q, waiting, pollsLeft).1 == log + effects + rejects + [done];
    }
  }

  lemma ReplyAdds(cfg: Settings, q: Q, log: seq<Effect>, c: nat, res: Result)
    requires Adds(q, log) && c in q.frames
    ensures Adds(OnReply(cfg, q, c, res).0, log + OnReply(cfg, q, c, res).1)
  {
    hide Loop, Tallied, Neutral;
    var e := q.frames[c].entry;
    if q.queue == [] || q.queue[0] != e || res.isBlocked {
      TalliedSnoc(log, OnReply(cfg, q, c, res).1[0]);
    } else {
      var won := Resolve(c, e, res.remaining, res.resetTime);
      var rest := q.(queue := q.queue[1..], frames := q.frames - {c});
      TalliedSnoc(log, won);
      DrainNeutral(rest);
      NeutralKeeps(log + [won], Loop(rest).1);
      assert log + OnReply(cfg, q, c, res).1 == (log + [won]) + Loop(rest).1;
    }
  }

  lemma TimeoutAdds(q: Q, log: seq<Effect>, e: Entry)
    requires Adds(q, log) && e in q.queue
    ensures Adds(OnWaitTimeout(q, e).0, log + OnWaitTimeout(q, e).1)
  {
    hide Drain, Loop, Tallied, Neutral;
    var gone := q.(queue := Remove(q.queue, e), timeouts := if q.isShutdown then q.timeouts + 1 else q.timeouts);
    var idle := if q.queue[0] == e && q.timer then gone.(timer := false, processing := false) else gone;
    TalliedSnoc(log, Reject(e, QueueTimeout));
    DrainNeutral(idle);
    NeutralKeeps(log + [Reject(e, QueueTimeout)], Drain(idle).1);
    assert log + OnWaitTimeout(q, e).1 == (log + [Reject(e, QueueTimeout)]) + Drain(idle).1;
  }

  lemma ShutdownAdds(q: Q, log: seq<Effect>, ms: int)
    requires Adds(q, log)
    ensures Adds(OnShutdown(q, ms).0, log + OnShutdown(q, ms).1)
  {
    hide Poll, Tallied;
    if q.isShutdown {
      TalliedSnoc(log, ShutdownRepeated(q.timeouts));
      TalliedSnoc(log + [ShutdownRepeated(q.timeouts)], ShutdownDone(0, 0));
      assert log + OnShutdown(q, ms).1 == log + [ShutdownRepeated(q.timeouts)] + [ShutdownDone(0, 0)];
    } else {
      var begun, start := ShutdownStarted(|q.queue|), q.(timeouts := 0, isShutdown := true);
      TalliedSnoc(log, begun);
      PollAdds(start, log + [begun], |q.queue|, Polls(ms));
      assert log + OnShutdown(q, ms).1 == (log + [begun]) + Poll(start, |q.queue|, Polls(ms)).1;
    }
  }

  lemma StepAdds(cfg: Settings, q: Q, log: seq<Effect>, ev: Event)
    requires Adds(q, log) && Enabled(cfg, q, ev)
    ensures Adds(Step(cfg, q, ev).0, log + Step(cfg, q, ev).1)
  {
    hide Drain, Loop, Tallied, Neutral, OnReply, OnWaitTimeout, OnShutdown, Poll;
    match ev
    case RemoveTokens(key, cost) =>
      if Refusal(cfg, q, cost).Some? {
        TalliedSnoc(log, Refuse(Refusal(cfg, q, cost).value));
      } else {
        var more := q.(queue := q.queue + [Entry(q.nextId, key, cost)], nextId := q.nextId + 1);
        DrainNeutral(more);
        NeutralKeeps(log, Drain(more).1);
      }
    case WaitTimeout(e) => TimeoutAdds(q, log, e);
    case Retry =>
      DrainNeutral(q.(timer := false, processing := false));
      NeutralKeeps(log, Drain(q.(timer := false, processing := false)).1);
    case Reply(c, res) => ReplyAdds(cfg, q, log, c, res);
    case UndoDone(c) =>
      var rest := q.(frames := q.frames - {c});
      DrainNeutral(rest);
      NeutralKeeps(log, Loop(rest).1);
      assert log + [] == log;
    case Clear =>
      RejectAllNeutral(q.queue, QueueCleared);
      NeutralKeeps(log, RejectAll(q.queue, QueueCleared));
    case Shutdown(ms) => ShutdownAdds(q, log, ms);
    case PollTick => PollAdds(q, log, q.ctl.waiting, Max(0, q.ctl.pollsLeft - 1));
  }

  /** In every run, the figures of a shutdown add up while it polls and in its report. */
  lemma {:induction false} ShutdownAddsUp(cfg: Settings, evs: seq<Event>)
    ensures Adds(Exec(cfg, evs).0, Exec(cfg, evs).1)
  {
    if evs != [] {
      hide Step, Adds;
      ShutdownAddsUp(cfg, evs[..|evs| - 1]);
      var (q, log) := Exec(cfg, evs[..|evs| - 1]);
      if Enabled(cfg, q, evs[|evs| - 1]) {
        StepAdds(cfg, q, log, evs[|evs| - 1]);
      }
    }
  }

  // ----- when the report is exact ----------------------------------------------------------------

  lemma PollNeutral(q: Q, waiting: nat, pollsLeft: nat)
    ensures Neutral(Poll(q, waiting, pollsLeft).1) && !Poll(q, waiting, pollsLeft).0.ctl.Open?
  {
    hide Drain, Loop;
    DrainNeutral(q);
    RejectAllNeutral(Drain(q).0.queue, QueueShutdown);
  }

  lemma TimeoutTally(q: Q, log: seq<Effect>, e: Entry)
    requires e in q.queue
    ensures Tallied(log + OnWaitTimeout(q, e).1) == Tallied(log).(timedOut := Tallied(log).timedOut + 1)
    ensures OnWaitTimeout(q, e).0.ctl == q.ctl
  {
    hide Drain, Loop, Tallied, Neutral, Remove;
    var gone := q.(queue := Remove(q.queue, e), timeouts := if q.isShutdown then q.timeouts + 1 else q.timeouts);
    var idle := if q.queue[0] == e && q.timer then gone.(timer := false, processing := false) else gone;
    TalliedSnoc(log, Reject(e, QueueTimeout));
    DrainNeutral(idle);
    NeutralKeeps(log + [Reject(e, QueueTimeout)], Drain(idle).1);
    assert log + OnWaitTimeout(q, e).1 == (log + [Reject(e, QueueTimeout)]) + Drain(idle).1;
  }

  lemma ReplyTally(cfg: Settings, q: Q, log: seq<Effect>, c: nat, res: Result)
    requires c in q.frames
    ensures var (t, u) := (Tallied(log), Tallied(log + OnReply(cfg, q, c, res).1));
            u.timedOut == t.timedOut && u.forgotten == t.forgotten
    ensures OnReply(cfg, q, c, res).0.ctl == q.ctl
  {
    hide Loop, Tallied, Neutral;
    var e := q.frames[c].entry;
    if q.queue == [] || q.queue[0] != e || res.isBlocked {
      TalliedSnoc(log, OnReply(cfg, q, c, res).1[0]);
    } else {
      var won := Resolve(c, e, res.remaining, res.resetTime);
      var rest := q.(queue := q.queue[1..], frames := q.frames - {c});
      TalliedSnoc(log, won);
      DrainNeutral(rest);
      NeutralKeeps(log + [won], Loop(rest).1);
      assert log + OnReply(cfg, q, c, res).1 == (log + [won]) + Loop(rest).1;
    }
  }

  lemma ShutdownTally(q: Q, log: seq<Effect>, ms: int)
    requires q.ctl.Open? <==> !q.isShutdown
    ensures var (r, effects) := OnShutdown(q, ms);
            var (t, u) := (Tallied(log), Tallied(log + effects));
            !r.ctl.Open? && u == if q.isShutdown then t.(forgotten := t.forgotten + q.timeouts) else Tally(0, 0, 0)
  {
    hide Tallied, Neutral, Poll;
    if q.isShutdown {
      TalliedSnoc(log, ShutdownRepeated(q.timeouts));
      TalliedSnoc(log + [ShutdownRepeated(q.timeouts)], ShutdownDone(0, 0));
      assert log + OnShutdown(q, ms).1 == log + [ShutdownRepeated(q.timeouts)] + [ShutdownDone(0, 0)];
    } else {
      var begun, start := ShutdownStarted(|q.queue|), q.(timeouts := 0, isShutdown := true);
      TalliedSnoc(log, begun);
      PollNeutral(start, |q.queue|, Polls(ms));
      NeutralKeeps(log + [begun], Poll(start, |q.queue|, Polls(ms)).1);
      assert log + OnShutdown(q, ms).1 == log + [begun] + Poll(start, |q.queue|, Polls(ms)).1;
    }
  }

  /** What one event does to the figures. */
  lemma StepTally(cfg: Settings, q: Q, log: seq<Effect>, ev: Event)
    requires Enabled(cfg, q, ev) && (q.ctl.Open? <==> !q.isShutdown)
    ensures var (r, effects) := Step(cfg, q, ev);
            var (t, u) := (Tallied(log), Tallied(log + effects));
            if ev.Shutdown? && !q.isShutdown then u == Tally(0, 0, 0) && !r.ctl.Open?
            else && u.timedOut == t.timedOut + (if ev.WaitTimeout? then 1 else 0)
                 && u.forgotten == t.forgotten + (if ev.Shutdown? then q.timeouts else 0)
                 && (r.ctl.Open? <==> q.ctl.Open?)
  {
    hide Drain, Loop, Tallied, Neutral, Poll, RejectAll, OnWaitTimeout, OnReply, OnShutdown;
    match ev
    case RemoveTokens(key, cost) =>
      if Refusal(cfg, q, cost).Some? {
        TalliedSnoc(log, Refuse(Refusal(cfg, q, cost).value));
      } else {
        var more := q.(queue := q.queue + [Entry(q.nextId, key, cost)], nextId := q.nextId + 1);
        DrainNeutral(more);
        NeutralKeeps(log, Drain(more).1);
      }
    case WaitTimeout(e) => TimeoutTally(q, log, e);
    case Retry =>
      DrainNeutral(q.(timer := false, processing := false));
      NeutralKeeps(log, Drain(q.(timer := false, processing := false)).1);
    case Reply(c, res) => ReplyTally(cfg, q, log, c, res);
    case UndoDone(c) =>
      var rest := q.(frames := q.frames - {c});
      DrainNeutral(rest);
      NeutralKeeps(log, Loop(rest).1);
      assert log + [] == log;
    case Clear =>
      RejectAllNeutral(q.queue, QueueCleared);
      NeutralKeeps(log, RejectAll(q.queue, QueueCleared));
    case Shutdown(ms) => ShutdownTally(q, log, ms);
    case PollTick =>
      PollNeutral(q, q.ctl.waiting, Max(0, q.ctl.pollsLeft - 1));
      NeutralKeeps(log, Step(cfg, q, ev).1);
  }

  /** A waiter timed out while the shutdown was draining. */
  ghost predicate TimeoutDuring(cfg: Settings, evs: seq<Event>) {
    evs != [] &&
    (var (init, ev) := (evs[..|evs| - 1], evs[|evs| - 1]);
     var q := Exec(cfg, init).0;
     TimeoutDuring(cfg, init) || (ev.WaitTimeout? && q.ctl.Polling? && Enabled(cfg, q, ev)))
  }

  /** And `shutdown` was called again after that, before the first call had reported. */
  ghost predicate RepeatAfterTimeout(cfg: Settings, evs: seq<Event>) {
    evs != [] &&
    (var (init, ev) := (evs[..|evs| - 1], evs[|evs| - 1]);
     RepeatAfterTimeout(cfg, init) || (ev.Shutdown? && Exec(cfg, init).0.ctl.Polling? && TimeoutDuring(cfg, init)))
  }

  ghost predicate Explained(q: Q, t: Tally, timeout: bool, repeated: bool) {
    if q.ctl.Open? then !timeout && !repeated else (t.timedOut > 0 <==> timeout) && (t.forgotten > 0 <==> repeated)
  }

  lemma {:induction false} FiguresExplained(cfg: Settings, evs: seq<Event>)
    ensures var (q, log) := Exec(cfg, evs);
            Explained(q, Tallied(log), TimeoutDuring(cfg, evs), RepeatAfterTimeout(cfg, evs))
  {
    if evs != [] {
      hide Step, Tallied, Enabled;
      var (init, ev) := (evs[..|evs| - 1], evs[|evs| - 1]);
      var (q, log) := Exec(cfg, init);
      FiguresExplained(cfg, init);
      ShutdownAddsUp(cfg, init);
      if Enabled(cfg, q, ev) {
        StepTally(cfg, q, log, ev);
        ClosedIsEmpty(cfg, q, log, ev);
      } else {
        AlwaysPossible(cfg, q, ev);
      }
    }
  }

  lemma ClosedIsEmpty(cfg: Settings, q: Q, log: seq<Effect>, ev: Event)
    requires Adds(q, log) && Enabled(cfg, q, ev)
    ensures q.ctl.Open? <==> !q.isShutdown
    ensures q.ctl.Closed? ==> !ev.WaitTimeout? && q.timeouts == 0
  {
  }

  lemma AlwaysPossible(cfg: Settings, q: Q, ev: Event)
    ensures ev.Shutdown? ==> Enabled(cfg, q, ev)
  {
  }

  /**
   The reported number is the number of requests resolved, unless a waiter timed out during the drain and
   `shutdown` was called again before the report: then it is too high.
   */
  lemma DrainedExactIff(cfg: Settings, evs: seq<Event>)
    requires Exec(cfg, evs).0.ctl.Closed?
    ensures var (q, log) := Exec(cfg, evs);
            && (q.ctl.drained == Tallied(log).resolved <==> !RepeatAfterTimeout(cfg, evs))
            && q.ctl.drained + q.ctl.rejected + Tallied(log).timedOut == q.ctl.waiting + Tallied(log).forgotten
  {
    hide Exec, Tallied, RepeatAfterTimeout, TimeoutDuring;
    ShutdownAddsUp(cfg, evs);
    FiguresExplained(cfg, evs);
  }

  /** One waiter in flight, then polling; it times out; the timeout is forgotten. */
  function InFlightOnce(e: Entry): (q: Q) {
    Q([e], true, false, map[0 := AwaitIncrement(e)], 1, 1, false, 0, Open)
  }

  lemma MiscountBegins(cfg: Settings, e: Entry)
    requires cfg.timed && cfg.maxQueueSize.None? && cfg.maxRequests >= 1 && e.id == 0 && e.cost == 1
    ensures Step(cfg, INITIAL, RemoveTokens(e.key, 1)) == (InFlightOnce(e), [Charge(0, e.key, 1)])
    ensures Step(cfg, InFlightOnce(e), Shutdown(20)) ==
            (InFlightOnce(e).(isShutdown := true, ctl := Polling(1, 2)), [ShutdownStarted(1)])
  {
    assert [] + [e] == [e];
    assert [ShutdownStarted(1)] + [] == [ShutdownStarted(1)];
  }

  lemma MiscountEnds(cfg: Settings, e: Entry)
    requires cfg.timed
    ensures var polling := InFlightOnce(e).(isShutdown := true, ctl := Polling(1, 2));
            var empty := polling.(queue := [], timeouts := 1);
            && Step(cfg, polling, WaitTimeout(e)) == (empty, [Reject(e, QueueTimeout)])
            && Step(cfg, empty, Shutdown(0)) == (empty.(timeouts := 0), [ShutdownRepeated(1), ShutdownDone(0, 0)])
            && Step(cfg, empty.(timeouts := 0), PollTick) ==
               (empty.(timeouts := 0, processing := false, ctl := Closed(1, 0, 1)), [ShutdownDone(0, 1)])
  {
    assert [e][1..] == [];
    assert Remove([e], e) == [];
    assert [Reject(e, QueueTimeout)] + [] == [Reject(e, QueueTimeout)];
    assert [] + [] + [ShutdownDone(0, 1)] == [ShutdownDone(0, 1)];
  }

  /** A shutdown begins while a waiter's call is in flight, and the waiter times out. */
  lemma MiscountTimesOut(cfg: Settings, e: Entry) returns (log: seq<Effect>)
    requires cfg.timed && cfg.maxQueueSize.None? && cfg.maxRequests >= 1 && e.id == 0 && e.cost == 1
    ensures var empty := InFlightOnce(e).(isShutdown := true, ctl := Polling(1, 2), queue := [], timeouts := 1);
            Exec(cfg, [RemoveTokens(e.key, 1), Shutdown(20), WaitTimeout(e)]) == (empty, log)
    ensures Tallied(log) == Tally(0, 1, 0)
  {
    hide Step, Tallied;
    MiscountBegins(cfg, e);
    MiscountEnds(cfg, e);
    var polling := InFlightOnce(e).(isShutdown := true, ctl := Polling(1, 2));
    var evs := [RemoveTokens(e.key, 1)];
    log := [Charge(0, e.key, 1)];
    assert [] + evs == evs && [] + log == log;
    ExecSnoc(cfg, [], evs[0], INITIAL, InFlightOnce(e), [], log);
    ExecSnoc(cfg, evs, Shutdown(20), InFlightOnce(e), polling, log, log + [ShutdownStarted(1)]);
    TalliedSnoc(log, ShutdownStarted(1));
    evs, log := evs + [Shutdown(20)], log + [ShutdownStarted(1)];
    ExecSnoc(cfg, evs, WaitTimeout(e), polling, polling.(queue := [], timeouts := 1), log,
      log + [Reject(e, QueueTimeout)]);
    TalliedSnoc(log, Reject(e, QueueTimeout));
    log := log + [Reject(e, QueueTimeout)];
    assert evs + [WaitTimeout(e)] == [RemoveTokens(e.key, 1), Shutdown(20), WaitTimeout(e)];
  }

  /**
   One waiter times out while the queue drains, and a second shutdown call arrives: the report says one was drained.
   */
  lemma RepeatedShutdownMiscounts(cfg: Settings, k: Key)
    requires cfg.timed && cfg.maxQueueSize.None? && cfg.maxRequests >= 1
    ensures var e := Entry(0, k, 1);
            var (q, log) := Exec(cfg, [RemoveTokens(k, 1), Shutdown(20), WaitTimeout(e), Shutdown(0), PollTick]);
            q.ctl == Closed(1, 0, 1) && Tallied(log) == Tally(0, 1, 1)
  {
    hide Step, Tallied, Exec;
    var e := Entry(0, k, 1);
    MiscountEnds(cfg, e);
    var empty := InFlightOnce(e).(isShutdown := true, ctl := Polling(1, 2), queue := [], timeouts := 1);
    var evs := [RemoveTokens(k, 1), Shutdown(20), WaitTimeout(e)];
    var log := MiscountTimesOut(cfg, e);
    assert log + [ShutdownRepeated(1), ShutdownDone(0, 0)] == log + [ShutdownRepeated(1)] + [ShutdownDone(0, 0)];
    ExecSnoc(cfg, evs, Shutdown(0), empty, empty.(timeouts := 0), log,
      log + [ShutdownRepeated(1)] + [ShutdownDone(0, 0)]);
    TalliedSnoc(log, ShutdownRepeated(1));
    TalliedSnoc(log + [ShutdownRepeated(1)], ShutdownDone(0, 0));
    evs, log := evs + [Shutdown(0)], log + [ShutdownRepeated(1)] + [ShutdownDone(0, 0)];
    var closed := empty.(timeouts := 0, processing := false, ctl := Closed(1, 0, 1));
    ExecSnoc(cfg, evs, PollTick, empty.(timeouts := 0), closed, log, log + [ShutdownDone(0, 1)]);
    TalliedSnoc(log, ShutdownDone(0, 1));
    assert evs + [PollTick] == [RemoveTokens(k, 1), Shutdown(20), WaitTimeout(e), Shutdown(0), PollTick];
  }

  lemma ExecSnoc(cfg: Settings, evs: seq<Event>, ev: Event, q: Q, next: Q, log: seq<Effect>, more: seq<Effect>)
    requires Exec(cfg, evs) == (q, log) && Enabled(cfg, q, ev)
    requires Step(cfg, q, ev).0 == next && log + Step(cfg, q, ev).1 == more
    ensures Exec(cfg, evs + [ev]) == (next, more)
  {
    hide Step;
    assert (evs + [ev])[..|evs|] == evs;
  }
}
