/**
 The queue's accounts, in every interleaving: each store increment made by a drain is
 either in flight, or ended in exactly one of resolving one request, one decrement of the
 same key and cost, or (a blocked bucket) no undo.
 */
module QueueLedger {
  import opened Entries
  import opened QueueSpec
  import opened QueueRuns

  // ----- one store call ---------------------------------------------------------------

  function ChargedBy(x: Effect, c: nat): (n: nat) {
    if x.Charge? && x.call == c then 1 else 0
  }

  function ClosedBy(x: Effect, c: nat): (n: nat) {
    if (x.Undo? || x.NoUndo? || x.Resolve?) && x.call == c then 1 else 0
  }

  /** What the effect adds to the units still held against `k` by call `c`. */
  function HeldBy(x: Effect, c: nat, k: Key): (n: int) {
    match x
    case Charge(call, key, cost) => if call == c && key == k then cost else 0
    case Undo(call, key, cost, _) => if call == c && key == k then -cost else 0
    case NoUndo(call, key, cost) => if call == c && key == k then -cost else 0
    case Resolve(call, e, _, _) => if call == c && e.key == k then -e.cost else 0
    case _ => 0
  }

  /** Charges made, charges closed, and units still held, for one call over a log. */
  datatype Account = Account(charged: int, closed: int, held: int) {
    function Plus(x: Effect, c: nat, k: Key): (a: Account) {
      Account(charged + ChargedBy(x, c), closed + ClosedBy(x, c), held + HeldBy(x, c, k))
    }
  }

  function Ledger(log: seq<Effect>, c: nat, k: Key): (a: Account) {
    if log == [] then Account(0, 0, 0) else Ledger(log[..|log| - 1], c, k).Plus(log[|log| - 1], c, k)
  }

  /** Account of a call as the state has it: not made, in flight, or closed. */
  function Expected(q: Q, c: nat, k: Key): (a: Account) {
    if c >= q.nextCall then Account(0, 0, 0)
    else if c in q.frames && q.frames[c].AwaitIncrement? then
      Account(1, 0, if q.frames[c].entry.key == k then q.frames[c].entry.cost else 0)
    else Account(1, 1, 0)
  }

  ghost predicate CallsKnown(q: Q) {
    forall c :: c in q.frames ==> c < q.nextCall
  }

  lemma LedgerSnoc(log: seq<Effect>, x: Effect, c: nat, k: Key)
    ensures Ledger(log + [x], c, k) == Ledger(log, c, k).Plus(x, c, k)
  {
    assert (log + [x])[..|log|] == log;
  }

  predicate OffBooks(effects: seq<Effect>) {
    forall i :: 0 <= i < |effects| ==>
      !(effects[i].Charge? || effects[i].Undo? || effects[i].NoUndo? || effects[i].Resolve?)
  }

  lemma {:induction false} OffBooksKeeps(log: seq<Effect>, effects: seq<Effect>, c: nat, k: Key)
    requires OffBooks(effects)
    ensures Ledger(log + effects, c, k) == Ledger(log, c, k)
  {
    if effects == [] {
      assert log + effects == log;
    } else {
      var init := effects[..|effects| - 1];
      OffBooksKeeps(log, init, c, k);
      assert (log + effects)[..|log + effects| - 1] == log + init;
    }
  }

  lemma {:induction false} RejectAllOffBooks(queue: seq<Entry>, code: Code)
    ensures OffBooks(RejectAll(queue, code))
  {
    if queue != [] {
      RejectAllOffBooks(queue[1..], code);
    }
  }

  /** The loop's next charge, after any effects that are off the books. */
  lemma LoopBalances(q: Q, log: seq<Effect>, c: nat, k: Key)
    requires CallsKnown(q) && Ledger(log, c, k) == Expected(q, c, k)
    ensures CallsKnown(Loop(q).0) && Ledger(log + Loop(q).1, c, k) == Expected(Loop(q).0, c, k)
  {
    if q.queue == [] {
      assert log + [] == log;
    } else {
      LedgerSnoc(log, Loop(q).1[0], c, k);
    }
  }

  lemma DrainBalances(q: Q, log: seq<Effect>, c: nat, k: Key)
    requires CallsKnown(q) && Ledger(log, c, k) == Expected(q, c, k)
    ensures CallsKnown(Drain(q).0) && Ledger(log + Drain(q).1, c, k) == Expected(Drain(q).0, c, k)
  {
    if q.processing {
      assert log + [] == log;
    } else {
      LoopBalances(q.(processing := true), log, c, k);
    }
  }

  lemma ExpectedSame(q: Q, r: Q, c: nat, k: Key)
    requires q.frames == r.frames && q.nextCall == r.nextCall
    ensures Expected(q, c, k) == Expected(r, c, k) && CallsKnown(q) == CallsKnown(r)
  {
  }

  lemma ResolveBalances(q: Q, log: seq<Effect>, call: nat, res: Result, c: nat, k: Key)
    requires CallsKnown(q) && Ledger(log, c, k) == Expected(q, c, k) && call in q.frames
    requires q.frames[call].AwaitIncrement?
    ensures var won := log + [Resolve(call, q.frames[call].entry, res.remaining, res.resetTime)];
            var rest := q.(frames := q.frames - {call});
            CallsKnown(rest) && Ledger(won, c, k) == Expected(rest, c, k)
  {
    hide Ledger;
    LedgerSnoc(log, Resolve(call, q.frames[call].entry, res.remaining, res.resetTime), c, k);
  }

  lemma UndoBalances(cfg: Settings, q: Q, log: seq<Effect>, call: nat, after: Frame, blocked: bool, c: nat, k: Key)
    requires CallsKnown(q) && Ledger(log, c, k) == Expected(q, c, k)
    requires call in q.frames && q.frames[call].AwaitIncrement? && !after.AwaitIncrement?
    ensures var undone := log + [UndoCall(cfg, call, q.frames[call].entry, blocked)];
            var later := q.(frames := q.frames[call := after]);
            CallsKnown(later) && Ledger(undone, c, k) == Expected(later, c, k)
  {
    hide Ledger;
    LedgerSnoc(log, UndoCall(cfg, call, q.frames[call].entry, blocked), c, k);
  }

  lemma ReplyBalances(cfg: Settings, q: Q, log: seq<Effect>, call: nat, res: Result, c: nat, k: Key)
    requires CallsKnown(q) && Ledger(log, c, k) == Expected(q, c, k) && call in q.frames
    requires q.frames[call].AwaitIncrement?
    ensures var (next, effects) := OnReply(cfg, q, call, res);
            CallsKnown(next) && Ledger(log + effects, c, k) == Expected(next, c, k)
  {
    hide Loop, Ledger, Expected, CallsKnown;
    var e := q.frames[call].entry;
    if q.queue == [] || q.queue[0] != e || res.isBlocked {
      var stale := q.queue == [] || q.queue[0] != e;
      UndoBalances(cfg, q, log, call, if stale then AwaitStaleUndo(e) else AwaitBlockedUndo(e), res.isBlocked, c, k);
    } else {
      var won := [Resolve(call, e, res.remaining, res.resetTime)];
      var rest := q.(queue := q.queue[1..], frames := q.frames - {call});
      ResolveBalances(q, log, call, res, c, k);
      ExpectedSame(q.(frames := q.frames - {call}), rest, c, k);
      LoopBalances(rest, log + won, c, k);
      assert log + OnReply(cfg, q, call, res).1 == (log + won) + Loop(rest).1;
    }
  }

  lemma PollBalances(q: Q, log: seq<Effect>, waiting: nat, pollsLeft: nat, c: nat, k: Key)
    requires CallsKnown(q) && Ledger(log, c, k) == Expected(q, c, k)
    ensures var (next, effects) := Poll(q, waiting, pollsLeft);
            CallsKnown(next) && Ledger(log + effects, c, k) == Expected(next, c, k)
  {
    hide Drain, Loop, Ledger, Expected, CallsKnown;
    var (d, effects) := Drain(q);
    DrainBalances(q, log, c, k);
    ExpectedSame(d, Poll(q, waiting, pollsLeft).0, c, k);
    if !(pollsLeft > 0 && d.queue != []) {
      RejectAllOffBooks(d.queue, QueueShutdown);
      var rejects := RejectAll(d.queue, QueueShutdown);
      OffBooksKeeps(log + effects, rejects, c, k);
      var done := [ShutdownDone(|d.queue|, Max(0, waiting - |d.queue| - d.timeouts))];
      OffBooksKeeps(log + effects + rejects, done, c, k);
      assert log + Poll(q, waiting, pollsLeft).1 == log + effects + rejects + done;
    }
  }

  lemma TimeoutBalances(q: Q, log: seq<Effect>, e: Entry, c: nat, k: Key)
    requires CallsKnown(q) && Ledger(log, c, k) == Expected(q, c, k)
    ensures var (next, effects) := OnWaitTimeout(q, e);
            CallsKnown(next) && Ledger(log + effects, c, k) == Expected(next, c, k)
  {
    hide Loop, Drain, Ledger;
    var gone := q.(queue := Remove(q.queue, e), timeouts := if q.isShutdown then q.timeouts + 1 else q.timeouts);
    var idle := if q.queue != [] && q.queue[0] == e && q.timer then gone.(timer := false, processing := false)
      else gone;
    OffBooksKeeps(log, [Reject(e, QueueTimeout)], c, k);
    DrainBalances(idle, log + [Reject(e, QueueTimeout)], c, k);
    assert log + OnWaitTimeout(q, e).1 == (log + [Reject(e, QueueTimeout)]) + Drain(idle).1;
  }

  lemma ShutdownBalances(q: Q, log: seq<Effect>, ms: int, c: nat, k: Key)
    requires CallsKnown(q) && Ledger(log, c, k) == Expected(q, c, k)
    ensures var (next, effects) := OnShutdown(q, ms);
            CallsKnown(next) && Ledger(log + effects, c, k) == Expected(next, c, k)
  {
    hide Poll, Ledger;
    if q.isShutdown {
      OffBooksKeeps(log, OnShutdown(q, ms).1, c, k);
    } else {
      var begun := [ShutdownStarted(|q.queue|)];
      var start := q.(timeouts := 0, isShutdown := true);
      OffBooksKeeps(log, begun, c, k);
      PollBalances(start, log + begun, |q.queue|, Polls(ms), c, k);
      assert log + OnShutdown(q, ms).1 == (log + begun) + Poll(start, |q.queue|, Polls(ms)).1;
    }
  }

  lemma StepBalances(cfg: Settings, q: Q, log: seq<Effect>, ev: Event, c: nat, k: Key)
    requires CallsKnown(q) && Ledger(log, c, k) == Expected(q, c, k) && Enabled(cfg, q, ev)
    ensures var (next, effects) := Step(cfg, q, ev);
            CallsKnown(next) && Ledger(log + effects, c, k) == Expected(next, c, k)
  {
    hide Loop, Drain, Ledger, OnReply, OnWaitTimeout, Poll, OnShutdown;
    match ev
    case RemoveTokens(key, cost) =>
      if Refusal(cfg, q, cost).Some? {
        OffBooksKeeps(log, [Refuse(Refusal(cfg, q, cost).value)], c, k);
      } else {
        DrainBalances(q.(queue := q.queue + [Entry(q.nextId, key, cost)], nextId := q.nextId + 1), log, c, k);
      }
    case WaitTimeout(e) => TimeoutBalances(q, log, e, c, k);
    case Retry => DrainBalances(q.(timer := false, processing := false), log, c, k);
    case Reply(call, res) => ReplyBalances(cfg, q, log, call, res, c, k);
    case UndoDone(call) =>
      LoopBalances(q.(frames := q.frames - {call}), log, c, k);
      assert log + [] == log;
    case Clear =>
      RejectAllOffBooks(q.queue, QueueCleared);
      OffBooksKeeps(log, RejectAll(q.queue, QueueCleared), c, k);
    case Shutdown(ms) => ShutdownBalances(q, log, ms, c, k);
    case PollTick => PollBalances(q, log, q.ctl.waiting, Max(0, q.ctl.pollsLeft - 1), c, k);
  }

  /**
   In every run each call is charged once, and is either still in flight with its cost held, or
   closed once with nothing held for any key: what closed it named the same key and cost.
   */
  lemma {:induction false} EveryCallAccounted(cfg: Settings, evs: seq<Event>, c: nat, k: Key)
    ensures CallsKnown(Exec(cfg, evs).0)
    ensures Ledger(Exec(cfg, evs).1, c, k) == Expected(Exec(cfg, evs).0, c, k)
  {
    if evs != [] {
      hide Step, Ledger, Expected;
      EveryCallAccounted(cfg, evs[..|evs| - 1], c, k);
      var (q, log) := Exec(cfg, evs[..|evs| - 1]);
      if Enabled(cfg, q, evs[|evs| - 1]) {
        StepBalances(cfg, q, log, evs[|evs| - 1], c, k);
      }
    } else {
      assert Exec(cfg, evs) == (INITIAL, []);
    }
  }

  // ----- the key's total ---------------------------------------------------------------

  /** Units charged to `k` and neither undone nor untaken. */
  function NetCharge(log: seq<Effect>, k: Key): (n: int) {
    if log == [] then 0
    else
      NetCharge(log[..|log| - 1], k) +
      match log[|log| - 1]
      case Charge(_, key, cost) => if key == k then cost else 0
      case Undo(_, key, cost, _) => if key == k then -cost else 0
      case NoUndo(_, key, cost) => if key == k then -cost else 0
      case _ => 0
  }

  function ResolvedCost(log: seq<Effect>, k: Key): (n: int) {
    if log == [] then 0
    else
      ResolvedCost(log[..|log| - 1], k) +
      if log[|log| - 1].Resolve? && log[|log| - 1].entry.key == k then log[|log| - 1].entry.cost else 0
  }

  /** Units held by all calls numbered below `n`, as the log has them. */
  function HeldTotal(log: seq<Effect>, n: nat, k: Key): (t: int) {
    if n == 0 then 0 else HeldTotal(log, n - 1, k) + Ledger(log, n - 1, k).held
  }

  predicate NumberedBelow(x: Effect, n: nat) {
    match x
    case Charge(c, _, _) => c < n
    case Undo(c, _, _, _) => c < n
    case NoUndo(c, _, _) => c < n
    case Resolve(c, _, _, _) => c < n
    case _ => true
  }

  lemma {:induction false} HeldTotalSnoc(log: seq<Effect>, x: Effect, n: nat, k: Key)
    ensures HeldTotal(log + [x], n, k) == HeldTotal(log, n, k) + HeldUpTo(x, n, k)
  {
    if n > 0 {
      HeldTotalSnoc(log, x, n - 1, k);
      LedgerSnoc(log, x, n - 1, k);
    }
  }

  function HeldUpTo(x: Effect, n: nat, k: Key): (t: int) {
    if n == 0 then 0 else HeldUpTo(x, n - 1, k) + HeldBy(x, n - 1, k)
  }

  lemma {:induction false} HeldOnce(x: Effect, n: nat, k: Key)
    ensures HeldUpTo(x, n, k) ==
            if (x.Charge? || x.Undo? || x.NoUndo? || x.Resolve?) && x.call < n then HeldBy(x, x.call, k) else 0
  {
    if n > 0 {
      HeldOnce(x, n - 1, k);
    }
  }

  /** Summed over calls or over the log, the units held are the same. */
  lemma {:induction false} NetIsResolvedPlusHeld(log: seq<Effect>, n: nat, k: Key)
    requires forall i :: 0 <= i < |log| ==> NumberedBelow(log[i], n)
    ensures NetCharge(log, k) == ResolvedCost(log, k) + HeldTotal(log, n, k)
  {
    if log == [] {
      NothingHeld(n, k);
    } else {
      var init, x := log[..|log| - 1], log[|log| - 1];
      NetIsResolvedPlusHeld(init, n, k);
      assert log == init + [x];
      HeldTotalSnoc(init, x, n, k);
      HeldOnce(x, n, k);
    }
  }

  lemma {:induction false} NothingHeld(n: nat, k: Key)
    ensures HeldTotal([], n, k) == 0
  {
    if n > 0 {
      NothingHeld(n - 1, k);
    }
  }

  /** Cost of the calls that a drain is still awaiting. */
  function InFlight(q: Q, n: nat, k: Key): (t: int) {
    if n == 0 then 0 else InFlight(q, n - 1, k) + Expected(q, n - 1, k).held
  }

  /** The net charge on any key is the cost of its resolved requests plus the calls still in flight. */
  lemma NetChargeIsResolvedPlusInFlight(cfg: Settings, evs: seq<Event>, k: Key)
    ensures var (q, log) := Exec(cfg, evs);
            NetCharge(log, k) == ResolvedCost(log, k) + InFlight(q, q.nextCall, k)
  {
    hide Ledger, Exec;
    var (q, log) := Exec(cfg, evs);
    forall i | 0 <= i < |log| ensures NumberedBelow(log[i], q.nextCall) {
      AllNumbered(cfg, evs, i);
    }
    NetIsResolvedPlusHeld(log, q.nextCall, k);
    HeldIsInFlight(cfg, evs, q.nextCall, k);
  }

  lemma {:induction false} HeldIsInFlight(cfg: Settings, evs: seq<Event>, n: nat, k: Key)
    ensures HeldTotal(Exec(cfg, evs).1, n, k) == InFlight(Exec(cfg, evs).0, n, k)
  {
    hide Ledger, Exec, Expected;
    if n > 0 {
      HeldIsInFlight(cfg, evs, n - 1, k);
      EveryCallAccounted(cfg, evs, n - 1, k);
    }
  }

  /** An effect that names a call counts in that call's account, so the call has been made. */
  lemma AllNumbered(cfg: Settings, evs: seq<Event>, i: nat)
    requires i < |Exec(cfg, evs).1|
    ensures NumberedBelow(Exec(cfg, evs).1[i], Exec(cfg, evs).0.nextCall)
  {
    hide Exec;
    var (q, log) := Exec(cfg, evs);
    var x := log[i];
    if x.Charge? || x.Undo? || x.NoUndo? || x.Resolve? {
      var k := Key("");
      EveryCallAccounted(cfg, evs, x.call, k);
      CountedOnce(log, i, x.call, k);
    }
  }

  lemma {:induction false} CountedOnce(log: seq<Effect>, i: nat, c: nat, k: Key)
    requires i < |log| && ChargedBy(log[i], c) + ClosedBy(log[i], c) > 0
    ensures Ledger(log, c, k).charged + Ledger(log, c, k).closed > 0
    ensures Ledger(log, c, k).charged >= 0 && Ledger(log, c, k).closed >= 0
  {
    LedgerNonNegative(log[..|log| - 1], c, k);
    if i < |log| - 1 {
      CountedOnce(log[..|log| - 1], i, c, k);
    }
  }

  lemma {:induction false} LedgerNonNegative(log: seq<Effect>, c: nat, k: Key)
    ensures Ledger(log, c, k).charged >= 0 && Ledger(log, c, k).closed >= 0
  {
    if log != [] {
      LedgerNonNegative(log[..|log| - 1], c, k);
    }
  }
}
