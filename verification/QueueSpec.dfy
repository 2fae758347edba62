/**
 The waiting queue as a state machine. Every `await` of the drain loop is a step
 boundary, so a step is what runs between two awaits: a call of the public interface,
 a timer, or the resumption of one suspended drain. Several drains may be suspended at
 once, because clearing the queue forgets the one in flight.
 */
module QueueSpec {
  import opened Entries

  datatype Kind = SlidingKind | FixedKind | BucketKind

  /** `maxQueueSize` of `None` is unbounded; `timed` says whether waiting requests time out. */
  datatype Settings = Settings(maxQueueSize: Option<nat>, timed: bool, maxRequests: int, kind: Kind)

  datatype Entry = Entry(id: nat, key: Key, cost: int)

  /** Where a suspended drain awaits the store, and for which entry. */
  datatype Frame =
    | AwaitIncrement(entry: Entry)
    | AwaitStaleUndo(entry: Entry)
    | AwaitBlockedUndo(entry: Entry)

  datatype Code = QueueFull | QueueTimeout | QueueCleared | QueueShutdown | InvalidCost | CostExceedsLimit

  /** What a step does outside the queue: store calls, numbered, and promises settled. */
  datatype Effect =
    | Charge(call: nat, key: Key, cost: int)
    | Undo(call: nat, key: Key, cost: int, removeNewest: bool)
    | NoUndo(call: nat, key: Key, cost: int)
    | Resolve(call: nat, entry: Entry, remaining: int, resetTime: int)
    | Reject(entry: Entry, code: Code)
    | Refuse(code: Code)
    | ShutdownStarted(waiting: nat)
    | ShutdownRepeated(forgotten: nat)
    | ShutdownDone(rejected: nat, drained: nat)

  datatype Ctl =
    | Open
    | Polling(waiting: nat, pollsLeft: nat)
    | Closed(waiting: nat, rejected: nat, drained: nat)

  /**
   `frames` maps the number of a store increment to the drain that awaits it or its undo.
   `timer` says that a retry timer is armed; `timeouts` counts waiters timed out since shutdown began.
   */
  datatype Q = Q(
    queue: seq<Entry>, processing: bool, timer: bool, frames: map<nat, Frame>,
    nextCall: nat, nextId: nat, isShutdown: bool, timeouts: nat, ctl: Ctl)

  const INITIAL := Q([], false, false, map[], 0, 0, false, 0, Open)

  datatype Event =
    | RemoveTokens(key: Key, cost: int)
    | WaitTimeout(entry: Entry)
    | Retry
    | Reply(call: nat, result: Result)
    | UndoDone(call: nat)
    | Clear
    | Shutdown(drainTimeoutMs: int)
    | PollTick

  /** Clearing a queue that was shut down throws and changes nothing: such a `Clear` is not enabled. */
  predicate Enabled(cfg: Settings, q: Q, ev: Event) {
    match ev
    case RemoveTokens(_, _) => true
    case WaitTimeout(e) => cfg.timed && e in q.queue
    case Retry => q.timer
    case Reply(c, _) => c in q.frames && q.frames[c].AwaitIncrement?
    case UndoDone(c) => c in q.frames && !q.frames[c].AwaitIncrement?
    case Clear => !q.isShutdown
    case Shutdown(_) => true
    case PollTick => q.ctl.Polling?
  }

  function Remove(queue: seq<Entry>, e: Entry): (r: seq<Entry>)
    ensures |r| == if e in queue then |queue| - 1 else |queue|
  {
    if queue == [] then [] else if queue[0] == e then queue[1..] else [queue[0]] + Remove(queue[1..], e)
  }

  function RejectAll(queue: seq<Entry>, code: Code): (r: seq<Effect>) {
    if queue == [] then [] else [Reject(queue[0], code)] + RejectAll(queue[1..], code)
  }

  // ----- the drain loop ---------------------------------------------------------

  /** From the loop head to the next await: charge the head, or leave. */
  function Loop(q: Q): (r: (Q, seq<Effect>)) {
    if q.queue == [] then (q.(processing := q.processing && q.timer), [])
    else
      var e := q.queue[0];
      (q.(frames := q.frames[q.nextCall := AwaitIncrement(e)], nextCall := q.nextCall + 1),
       [Charge(q.nextCall, e.key, e.cost)])
  }

  function Drain(q: Q): (r: (Q, seq<Effect>)) {
    if q.processing then (q, []) else Loop(q.(processing := true))
  }

  /** A blocked bucket increment took nothing; a sliding window gives back the newest stamps. */
  function UndoCall(cfg: Settings, c: nat, e: Entry, isBlocked: bool): (r: Effect) {
    if cfg.kind.BucketKind? && isBlocked then NoUndo(c, e.key, e.cost)
    else Undo(c, e.key, e.cost, cfg.kind.SlidingKind?)
  }

  function OnReply(cfg: Settings, q: Q, c: nat, res: Result): (r: (Q, seq<Effect>))
    requires c in q.frames
  {
    var e := q.frames[c].entry;
    if q.queue == [] || q.queue[0] != e then
      (q.(frames := q.frames[c := AwaitStaleUndo(e)]), [UndoCall(cfg, c, e, res.isBlocked)])
    else if !res.isBlocked then
      var (next, effects) := Loop(q.(queue := q.queue[1..], frames := q.frames - {c}));
      (next, [Resolve(c, e, res.remaining, res.resetTime)] + effects)
    else
      (q.(frames := q.frames[c := AwaitBlockedUndo(e)]), [UndoCall(cfg, c, e, true)])
  }

  /** After a stale head the loop goes on; after a blocked head it leaves a retry timer behind. */
  function OnUndoDone(q: Q, c: nat): (r: (Q, seq<Effect>))
    requires c in q.frames
  {
    var rest := q.(frames := q.frames - {c});
    if q.frames[c].AwaitBlockedUndo? then (rest.(timer := true), []) else Loop(rest)
  }

  // ----- the public interface and the timers ---------------------------------------

  function Refusal(cfg: Settings, q: Q, cost: int): (r: Option<Code>) {
    if q.isShutdown then Some(QueueShutdown)
    else if cfg.maxQueueSize.Some? && |q.queue| >= cfg.maxQueueSize.value then Some(QueueFull)
    else if cost < 1 then Some(InvalidCost)
    else if cost > cfg.maxRequests then Some(CostExceedsLimit)
    else None
  }

  function OnRemoveTokens(cfg: Settings, q: Q, key: Key, cost: int): (r: (Q, seq<Effect>)) {
    var refused := Refusal(cfg, q, cost);
    if refused.Some? then (q, [Refuse(refused.value)])
    else Drain(q.(queue := q.queue + [Entry(q.nextId, key, cost)], nextId := q.nextId + 1))
  }

  function OnWaitTimeout(q: Q, e: Entry): (r: (Q, seq<Effect>)) {
    var wasHead := q.queue != [] && q.queue[0] == e;
    var gone := q.(queue := Remove(q.queue, e), timeouts := if q.isShutdown then q.timeouts + 1 else q.timeouts);
    var idle := if wasHead && q.timer then gone.(timer := false, processing := false) else gone;
    var (next, effects) := Drain(idle);
    (next, [Reject(e, QueueTimeout)] + effects)
  }

  function ClearPending(q: Q, code: Code): (r: (Q, seq<Effect>)) {
    (q.(timer := false, queue := [], processing := false), RejectAll(q.queue, code))
  }

  /** One poll every 10 ms until the drain timeout, at least one if there is a timeout. */
  function Polls(drainTimeoutMs: int): (n: nat) {
    if drainTimeoutMs <= 0 then 0 else Max(1, (drainTimeoutMs + 9) / 10)
  }

  /** After a drain during shutdown: keep polling, or report and reject what is left. */
  function Poll(q: Q, waiting: nat, pollsLeft: nat): (r: (Q, seq<Effect>)) {
    var (d, effects) := Drain(q);
    if pollsLeft > 0 && d.queue != [] then (d.(ctl := Polling(waiting, pollsLeft)), effects)
    else
      var drained, rejected := Max(0, waiting - |d.queue| - d.timeouts), |d.queue|;
      var (cleared, rejects) := ClearPending(d, QueueShutdown);
      (cleared.(timeouts := 0, ctl := Closed(waiting, rejected, drained)),
       effects + rejects + [ShutdownDone(rejected, drained)])
  }

  function OnShutdown(q: Q, drainTimeoutMs: int): (r: (Q, seq<Effect>)) {
    if q.isShutdown then (q.(timeouts := 0), [ShutdownRepeated(q.timeouts), ShutdownDone(0, 0)])
    else
      var (next, effects) := Poll(q.(timeouts := 0, isShutdown := true), |q.queue|, Polls(drainTimeoutMs));
      (next, [ShutdownStarted(|q.queue|)] + effects)
  }

  function Step(cfg: Settings, q: Q, ev: Event): (r: (Q, seq<Effect>))
    requires Enabled(cfg, q, ev)
  {
    match ev
    case RemoveTokens(key, cost) => OnRemoveTokens(cfg, q, key, cost)
    case WaitTimeout(e) => OnWaitTimeout(q, e)
    case Retry => Drain(q.(timer := false, processing := false))
    case Reply(c, res) => OnReply(cfg, q, c, res)
    case UndoDone(c) => OnUndoDone(q, c)
    case Clear => ClearPending(q, QueueCleared)
    case Shutdown(ms) => OnShutdown(q, ms)
    case PollTick => Poll(q, q.ctl.waiting, Max(0, q.ctl.pollsLeft - 1))
  }

  /** Any sequence of events from the empty queue; an event that is not enabled does nothing. */
  function Exec(cfg: Settings, evs: seq<Event>): (r: (Q, seq<Effect>)) {
    if evs == [] then (INITIAL, [])
    else
      var (q, log) := Exec(cfg, evs[..|evs| - 1]);
      if Enabled(cfg, q, evs[|evs| - 1]) then
        var (next, effects) := Step(cfg, q, evs[|evs| - 1]);
        (next, log + effects)
      else (q, log)
  }
}
