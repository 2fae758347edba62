/**
 How far the bound of the queue reaches: measured at the moment promises are resolved, and
 what happens to it when the store evicts live keys or a `clear()` overlaps a store call.
 */
module QueueLimits {
  import opened Entries
  import opened EntryLaws
  import opened MemoryTable
  import opened QueueSpec
  import opened FewKeys
  import opened QueueWindow

  // ----- measured at resolution ------------------------------------------------------------------

  /** Cost of the requests of a key whose promises were resolved in (from, to]. */
  ghost function ResolvedIn(released: seq<Release>, k: Key, from: int, to: int): (n: nat) {
    if released == [] then 0
    else
      var r := released[|released| - 1];
      ResolvedIn(released[..|released| - 1], k, from, to)
      + if r.key == k && from < r.releasedAt <= to then r.cost else 0
  }

  /** Every promise was resolved within `delay` of its charge. */
  ghost predicate Prompt(released: seq<Release>, delay: int) {
    forall i :: 0 <= i < |released| ==> released[i].chargedAt <= released[i].releasedAt <= released[i].chargedAt + delay
  }

  lemma {:induction false} ResolvedAreCharged(released: seq<Release>, k: Key, w: int, delay: int, last: int)
    requires Prompt(released, delay) && 0 <= delay <= w
    ensures ResolvedIn(released, k, last - (w - delay), last) <= InWindow(Released(released, k), w, last)
  {
    if released != [] {
      var init, r := released[..|released| - 1], released[|released| - 1];
      ResolvedAreCharged(init, k, w, delay, last);
      var stamps := Released(init, k);
      assert stamps + [] == stamps;
      CountInConcat(stamps, Repeat(r.chargedAt, r.cost), last - w, last);
      CountInRepeat(r.chargedAt, r.cost, last - w, last);
    }
  }

  /**
   Measured at the resolutions themselves: if replies take at most `delay`, then in any interval of
   length windowMs - delay the queue releases at most maxRequests. With immediate replies that is
   every interval of length windowMs.
   */
  lemma ResolvedWithinCap(cfg: Settings, lim: Limits, start: int, moves: seq<Move>, k: Key, last: int, delay: int)
    requires Fits(cfg, lim) && Undisturbed(cfg, lim, start, moves, k) && 0 <= delay <= lim.strategy.windowMs
    requires Prompt(Play(cfg, lim, start, moves).side.released, delay)
    ensures ResolvedIn(Play(cfg, lim, start, moves).side.released, k, last - (lim.strategy.windowMs - delay), last)
            <= cfg.maxRequests
  {
    hide Ok, Play, InWindow, Released, ResolvedIn, Prompt;
    ReleasedWithinCap(cfg, lim, start, moves, k, last);
    ResolvedAreCharged(Play(cfg, lim, start, moves).side.released, k, lim.strategy.windowMs, delay, last);
  }

  // ----- the bound is tight --------------------------------------------------------------------

  lemma PlaySnoc(cfg: Settings, lim: Limits, start: int, moves: seq<Move>, mv: Move)
    requires Fits(cfg, lim)
    ensures var w := Play(cfg, lim, start, moves);
            CanMove(cfg, w, mv) ==> Play(cfg, lim, start, moves + [mv]) == Moved(cfg, lim, w, mv)
  {
    hide Ok, Moved;
    assert (moves + [mv])[..|moves|] == moves;
  }

  /** What a request makes of an idle queue: it is charged at once. */
  lemma RequestCharges(cfg: Settings, lim: Limits, w: World, k: Key, n: Cost, now: int)
    requires Fits(cfg, lim) && Ok(lim, w.side.mem) && w.clock <= now && w.q.queue == [] && !w.q.processing
    requires !w.q.isShutdown
    requires cfg.maxQueueSize != Some(0) && n <= cfg.maxRequests
    ensures CanMove(cfg, w, QueueEvent(RemoveTokens(k, n), now))
    ensures var r := Moved(cfg, lim, w, QueueEvent(RemoveTokens(k, n), now));
            var (e, c) := (Entry(w.q.nextId, k, n), w.q.nextCall);
            && r.q == w.q.(queue := [e], processing := true, frames := w.q.frames[c := AwaitIncrement(e)],
              nextCall := c + 1, nextId := w.q.nextId + 1)
            && r.clock == now && r.side.released == w.side.released && r.side.at == w.side.at[c := now]
            && r.side.results == w.side.results[c := IncrementKey(lim, w.side.mem, k, Some(cfg.maxRequests), n, now).1]
            && r.side.mem == IncrementKey(lim, w.side.mem, k, Some(cfg.maxRequests), n, now).0
  {
    hide Ok, IncrementKey;
    var x := [Charge(w.q.nextCall, k, n)];
    assert DoAll(cfg, lim, w.side, x, now) == Do(cfg, lim, w.side, x[0], now) by {
      assert x[..0] == [];
    }
  }

  lemma ReplyReleases(cfg: Settings, lim: Limits, w: World, e: Entry, c: nat, now: int)
    requires Fits(cfg, lim) && Ok(lim, w.side.mem) && w.clock <= now && w.q.queue == [e] && !w.q.timer
    requires c in w.q.frames && w.q.frames[c] == AwaitIncrement(e)
    requires c in w.side.results && !w.side.results[c].isBlocked && c in w.side.at
    ensures CanMove(cfg, w, QueueEvent(Reply(c, w.side.results[c]), now))
    ensures var r := Moved(cfg, lim, w, QueueEvent(Reply(c, w.side.results[c]), now));
            && r.q == w.q.(queue := [], processing := false, frames := w.q.frames - {c})
            && r.clock == now && r.side.mem == w.side.mem && r.side.results == w.side.results && r.side.at == w.side.at
            && r.side.released == w.side.released + [Release(e.key, CostOf(e.cost), w.side.at[c], now)]
  {
    hide Ok;
    var res := w.side.results[c];
    var x := [Resolve(c, e, res.remaining, res.resetTime)];
    assert x + [] == x;
    assert DoAll(cfg, lim, w.side, x, now) == Do(cfg, lim, w.side, x[0], now) by {
      assert x[..0] == [];
    }
  }

  /** A store takes the whole cap at once, and again one window later. */
  lemma FullCapTwice(lim: Limits, k: Key, cap: Cost, now: int)
    requires lim.strategy.Valid() && lim.strategy.SlidingWindow?
    ensures Ok(lim, EMPTY)
    ensures var (m, r) := IncrementKey(lim, EMPTY, k, Some(cap), cap, now);
            !r.isBlocked && Ok(lim, m)
              && !IncrementKey(lim, m, k, Some(cap), cap, now + lim.strategy.windowMs).1.isBlocked
  {
    EmptyOk(lim, []);
    IncrementKeyOk(lim, EMPTY, k, Some(cap), cap, now);
    hide Ok, Claim, Increment;
    var m := IncrementKey(lim, EMPTY, k, Some(cap), cap, now).0;
    SlidingIncrementShape(lim.strategy, None, Some(cap), cap, now);
    CutDropsEarlier(Lookup(m, k).value.stamps, now);
    SlidingIncrementShape(lim.strategy, Lookup(m, k), Some(cap), cap, now + lim.strategy.windowMs);
  }

  ghost predicate Idle(w: World) {
    w.q.queue == [] && !w.q.processing && !w.q.timer && !w.q.isShutdown && w.q.frames == map[]
  }

  /** A request charged at `now` and answered at `later`, from an idle queue to an idle queue. */
  lemma OneRelease(cfg: Settings, lim: Limits, start: int, moves: seq<Move>, k: Key, n: Cost, now: int,
      later: int) returns (more: seq<Move>)
    requires Fits(cfg, lim) && cfg.maxQueueSize != Some(0) && n <= cfg.maxRequests && now <= later
    requires var w := Play(cfg, lim, start, moves);
             Idle(w) && w.clock <= now && !IncrementKey(lim, w.side.mem, k, Some(cfg.maxRequests), n, now).1.isBlocked
    ensures KeysOf(more) == KeysOf(moves) + {k}
    ensures ClearsApart(cfg, lim, start, moves) ==> ClearsApart(cfg, lim, start, more)
    ensures var (w, r) := (Play(cfg, lim, start, moves), Play(cfg, lim, start, more));
            && Idle(r) && r.clock == later && r.side.released == w.side.released + [Release(k, n, now, later)]
            && r.side.mem == IncrementKey(lim, w.side.mem, k, Some(cfg.maxRequests), n, now).0
  {
    hide Moved, IncrementKey, Ok, CanMove, Step, Play;
    var w := Play(cfg, lim, start, moves);
    var ask := QueueEvent(RemoveTokens(k, n), now);
    RequestCharges(cfg, lim, w, k, n, now);
    PlaySnoc(cfg, lim, start, moves, ask);
    var mid := Play(cfg, lim, start, moves + [ask]);
    var c := w.q.nextCall;
    var answer := QueueEvent(Reply(c, mid.side.results[c]), later);
    ReplyReleases(cfg, lim, mid, Entry(w.q.nextId, k, n), c, later);
    assert mid.q.frames - {c} == map[];
    PlaySnoc(cfg, lim, start, moves + [ask], answer);
    more := moves + [ask] + [answer];
    KeysSnoc(moves, ask);
    KeysSnoc(moves + [ask], answer);
    ApartSnoc(cfg, lim, start, moves, ask);
    ApartSnoc(cfg, lim, start, moves + [ask], answer);
  }

  lemma ApartSnoc(cfg: Settings, lim: Limits, start: int, moves: seq<Move>, mv: Move)
    requires Fits(cfg, lim)
    ensures ClearsApart(cfg, lim, start, moves + [mv])
            <==> ClearsApart(cfg, lim, start, moves) && Apart(cfg, Play(cfg, lim, start, moves), mv)
  {
    hide Ok, Play, Apart;
    assert (moves + [mv])[..|moves|] == moves;
  }

  lemma KeysSnoc(moves: seq<Move>, mv: Move)
    ensures KeysOf(moves + [mv]) == KeysOf(moves) + if mv.QueueEvent? && mv.ev.RemoveTokens? then {mv.ev.key} else {}
  {
    assert (moves + [mv])[..|moves|] == moves;
  }

  /**
   A first request answered as late as `delay` allows, and a second one a window after the first: both
   are released within windowMs - delay + 1, at twice the cap.
   */
  lemma SlowReplyExceeds(cfg: Settings, lim: Limits, start: int, k: Key, delay: int) returns (moves: seq<Move>)
    requires Fits(cfg, lim) && cfg.maxQueueSize != Some(0) && 0 <= delay <= lim.strategy.windowMs
    ensures var (released, end) := (Play(cfg, lim, start, moves).side.released, start + lim.strategy.windowMs);
            && Undisturbed(cfg, lim, start, moves, k) && Prompt(released, delay)
            && ResolvedIn(released, k, end - (lim.strategy.windowMs - delay + 1), end) == 2 * cfg.maxRequests
  {
    hide Moved, IncrementKey, Ok, CanMove, Step, ResolvedIn;
    var (n, later, end) := (cfg.maxRequests, start + delay, start + lim.strategy.windowMs);
    FullCapTwice(lim, k, n, start);
    assert Play(cfg, lim, start, []) == World(INITIAL, Side(EMPTY, map[], map[], []), start);
    moves := OneRelease(cfg, lim, start, [], k, n, start, later);
    moves := OneRelease(cfg, lim, start, moves, k, n, end, end);
    TwoReleases(Release(k, n, start, later), Release(k, n, end, end), k, later - 1, end);
    assert [] + [Release(k, n, start, later)] == [Release(k, n, start, later)];
    assert KeysOf(moves) == {k};
    assert ClearsApart(cfg, lim, start, []);
    FewKeysUndisturbed(cfg, lim, start, moves, k);
  }

  lemma TwoReleases(a: Release, b: Release, k: Key, from: int, to: int)
    requires a.key == k == b.key && from < a.releasedAt <= to && from < b.releasedAt <= to
    ensures ResolvedIn([a] + [b], k, from, to) == a.cost + b.cost
  {
    assert ([a] + [b])[..1] == [a] && [a][..0] == [];
    assert ResolvedIn([a], k, from, to) == a.cost;
  }

  lemma {:induction false} ResolvedInWidens(released: seq<Release>, k: Key, from: int, earlier: int, to: int)
    requires earlier <= from
    ensures ResolvedIn(released, k, from, to) <= ResolvedIn(released, k, earlier, to)
  {
    if released != [] {
      ResolvedInWidens(released[..|released| - 1], k, from, earlier, to);
    }
  }

  ghost predicate RunWithinCap(cfg: Settings, lim: Limits, start: int, delay: int, length: int, moves: seq<Move>,
      k: Key, last: int)
    requires Fits(cfg, lim)
  {
    var released := Play(cfg, lim, start, moves).side.released;
    Undisturbed(cfg, lim, start, moves, k) && Prompt(released, delay) ==>
      ResolvedIn(released, k, last - length, last) <= cfg.maxRequests
  }

  /**
   In every undisturbed run whose replies take at most `delay`, at most maxRequests are released in any interval of
   this length.
   */
  ghost predicate BoundHolds(cfg: Settings, lim: Limits, start: int, delay: int, length: int)
    requires Fits(cfg, lim)
  {
    forall moves, k, last :: RunWithinCap(cfg, lim, start, delay, length, moves, k, last)
  }

  /** Measured at resolution, the cap holds for an interval length exactly when it is at most windowMs - delay. */
  lemma ReleaseBoundIff(cfg: Settings, lim: Limits, start: int, delay: int, length: int)
    requires Fits(cfg, lim) && cfg.maxQueueSize != Some(0) && 0 <= delay <= lim.strategy.windowMs
    ensures BoundHolds(cfg, lim, start, delay, length) <==> length <= lim.strategy.windowMs - delay
  {
    hide Play, ResolvedIn, Prompt, Ok;
    var (w, k) := (lim.strategy.windowMs, Key(""));
    if length <= w - delay {
      forall moves, k, last ensures RunWithinCap(cfg, lim, start, delay, length, moves, k, last) {
        if Undisturbed(cfg, lim, start, moves, k) && Prompt(Play(cfg, lim, start, moves).side.released, delay) {
          ResolvedWithinCap(cfg, lim, start, moves, k, last, delay);
        }
        ResolvedInWidens(Play(cfg, lim, start, moves).side.released, k, last - length, last - (w - delay), last);
      }
    } else {
      var moves := SlowReplyExceeds(cfg, lim, start, k, delay);
      ResolvedInWidens(Play(cfg, lim, start, moves).side.released, k, start + w - (w - delay + 1),
        start + w - length, start + w);
      assert !RunWithinCap(cfg, lim, start, delay, length, moves, k, start + w);
    }
  }

  // ----- a `clear()` that overlaps a store call -----------------------------------------------

  lemma ClearForgets(cfg: Settings, lim: Limits, w: World, now: int)
    requires Fits(cfg, lim) && Ok(lim, w.side.mem) && w.clock <= now && !w.q.isShutdown
    ensures CanMove(cfg, w, QueueEvent(Clear, now))
    ensures Moved(cfg, lim, w, QueueEvent(Clear, now))
            == World(w.q.(timer := false, queue := [], processing := false), w.side, now)
  {
    hide Ok, Do;
    var xs := RejectAll(w.q.queue, QueueCleared);
    RejectAllInert(w.q.queue, QueueCleared);
    DoInert(cfg, lim, w.side, [], xs, now);
    assert [] + xs == xs;
  }

  /** The reply to a forgotten call, while another entry is the head: its charge is taken back from the newest end. */
  lemma StaleReplyUndoes(cfg: Settings, lim: Limits, w: World, c: nat, e: Entry, now: int)
    requires Fits(cfg, lim) && Ok(lim, w.side.mem) && w.clock <= now && w.q.queue != [] && w.q.queue[0] != e
    requires c in w.q.frames && w.q.frames[c] == AwaitIncrement(e) && c in w.side.results
    ensures lim.strategy.Valid() && MatchesOption(lim.strategy, Lookup(w.side.mem, e.key))
    ensures CanMove(cfg, w, QueueEvent(Reply(c, w.side.results[c]), now))
    ensures Moved(cfg, lim, w, QueueEvent(Reply(c, w.side.results[c]), now))
            == World(w.q.(frames := w.q.frames[c := AwaitStaleUndo(e)]),
                     w.side.(mem := DecrementKey(lim, w.side.mem, e.key, CostOf(e.cost), true)), now)
  {
    OkEntry(lim, w.side.mem, e.key);
    hide Ok, DecrementKey;
    DoOne(cfg, lim, w.side, UndoCall(cfg, c, e, w.side.results[c].isBlocked), now);
  }

  lemma UndoDoneIdles(cfg: Settings, lim: Limits, w: World, c: nat, e: Entry, now: int)
    requires Fits(cfg, lim) && Ok(lim, w.side.mem) && w.clock <= now && w.q.queue == [] && !w.q.timer
    requires c in w.q.frames && w.q.frames[c] == AwaitStaleUndo(e)
    ensures CanMove(cfg, w, QueueEvent(UndoDone(c), now))
    ensures Moved(cfg, lim, w, QueueEvent(UndoDone(c), now))
            == World(w.q.(frames := w.q.frames - {c}, processing := false), w.side, now)
  {
    hide Ok, Do;
  }

  ghost function UnitAtStart(lim: Limits, k: Key, cap: Cost, start: int): (m: Mem)
    requires lim.strategy.Valid() && lim.strategy.SlidingWindow?
    ensures Ok(lim, m)
  {
    EmptyOk(lim, []);
    IncrementKeyOk(lim, EMPTY, k, Some(cap), 1, start);
    IncrementKey(lim, EMPTY, k, Some(cap), 1, start).0
  }

  /** One unit at `start`, and the cap a window later: the unit has left the window. */
  lemma UnitThenCap(lim: Limits, k: Key, cap: Cost, start: int)
    requires lim.strategy.Valid() && lim.strategy.SlidingWindow?
    ensures var (w, end) := (lim.strategy.windowMs, start + lim.strategy.windowMs);
            var (m, r) := IncrementKey(lim, UnitAtStart(lim, k, cap, start), k, Some(cap), cap, end);
            Ok(lim, m) && !r.isBlocked && KeptFrom(m, Repeat(start, 1) + Repeat(end, cap), k, end - w)
  {
    hide Ok, IncrementKey, Cut;
    var (w, end) := (lim.strategy.windowMs, start + lim.strategy.windowMs);
    var (m, first) := (UnitAtStart(lim, k, cap, start), Repeat(start, 1));
    EmptyOk(lim, []);
    NothingKept(k, start - w);
    IncrementKeeps(lim, EMPTY, [], k, Some(cap), 1, start, start - w);
    assert [] + first == first;
    CutDropsEarlier(first, start);
    IncrementKeyOk(lim, m, k, Some(cap), cap, end);
    IncrementKeeps(lim, m, first, k, Some(cap), cap, end, start - w);
  }

  /** One unit undone from the newest end, and one more unit: it is allowed. */
  lemma UndoneThenUnit(lim: Limits, m: Mem, k: Key, cap: Cost, start: int)
    requires Ok(lim, m) && lim.strategy.SlidingWindow?
    requires KeptFrom(m, Repeat(start, 1) + Repeat(start + lim.strategy.windowMs, cap), k, start)
    ensures lim.strategy.Valid() && MatchesOption(lim.strategy, Lookup(m, k))
    ensures var r := DecrementKey(lim, m, k, 1, true);
            Ok(lim, r) && !IncrementKey(lim, r, k, Some(cap), 1, start + lim.strategy.windowMs).1.isBlocked
  {
    hide Ok, IncrementKey, DecrementKey, Cut, KeptFrom;
    OkEntry(lim, m, k);
    DecrementKeyOk(lim, m, k, 1, true);
    var (first, end) := (Repeat(start, 1), start + lim.strategy.windowMs);
    var kept := first + Repeat(end, cap - 1);
    OneLess(start, end, cap);
    UndoKeeps(lim, m, kept, k, end, 1, start);
    IncrementKeeps(lim, DecrementKey(lim, m, k, 1, true), kept, k, Some(cap), 1, end, start);
  }

  lemma OneLess(start: int, end: int, cap: Cost)
    requires start < end
    ensures var kept := Repeat(start, 1) + Repeat(end, cap - 1);
            && Repeat(start, 1) + Repeat(end, cap) == kept + Repeat(end, 1)
            && NotLater(kept, end) && |Cut(kept, start)| == cap - 1
  {
    hide Cut;
    CutConcat(Repeat(start, 1), Repeat(end, cap - 1), start);
    CutDropsEarlier(Repeat(start, 1), start);
    CutKeepsLater(Repeat(end, cap - 1), start);
  }

  lemma NothingKept(k: Key, cutoff: int)
    ensures KeptFrom(EMPTY, [], k, cutoff)
  {
  }

  /** The first half: a call is forgotten by `clear()`, and the cap is charged to the next request a window later. */
  lemma ForgottenCall(cfg: Settings, lim: Limits, start: int, k: Key) returns (moves: seq<Move>)
    requires Fits(cfg, lim) && cfg.maxQueueSize != Some(0)
    ensures KeysOf(moves) == {k}
    ensures var (w, n) := (Play(cfg, lim, start, moves), cfg.maxRequests);
            var m1 := UnitAtStart(lim, k, n, start);
            var (e0, e1, end) := (Entry(0, k, 1), Entry(1, k, n), start + lim.strategy.windowMs);
            && w.q == Q([e1], true, false, map[0 := AwaitIncrement(e0), 1 := AwaitIncrement(e1)], 2, 2, false, 0, Open)
            && w.clock == end && w.side.mem == IncrementKey(lim, m1, k, Some(n), n, end).0 && w.side.released == []
            && 0 in w.side.results && 1 in w.side.results
              && w.side.results[1] == IncrementKey(lim, m1, k, Some(n), n, end).1
            && 1 in w.side.at && w.side.at[1] == end
  {
    hide Moved, IncrementKey, Ok, CanMove, Step, Play;
    var (n, end) := (cfg.maxRequests, start + lim.strategy.windowMs);
    var (ask, clear, more) := (QueueEvent(RemoveTokens(k, 1), start), QueueEvent(Clear, start),
      QueueEvent(RemoveTokens(k, n), end));
    NoMoves(cfg, lim, start);
    RequestCharges(cfg, lim, Play(cfg, lim, start, []), k, 1, start);
    PlaySnoc(cfg, lim, start, [], ask);
    var w1 := Play(cfg, lim, start, [] + [ask]);
    ClearForgets(cfg, lim, w1, start);
    PlaySnoc(cfg, lim, start, [] + [ask], clear);
    var w2 := Play(cfg, lim, start, [] + [ask] + [clear]);
    RequestCharges(cfg, lim, w2, k, n, end);
    PlaySnoc(cfg, lim, start, [] + [ask] + [clear], more);
    moves := [] + [ask] + [clear] + [more];
    KeysSnoc([], ask);
    KeysSnoc([] + [ask], clear);
    KeysSnoc([] + [ask] + [clear], more);
  }

  lemma NoMoves(cfg: Settings, lim: Limits, start: int)
    requires Fits(cfg, lim)
    ensures Play(cfg, lim, start, []) == World(INITIAL, Side(EMPTY, map[], map[], []), start)
    ensures ClearsApart(cfg, lim, start, []) && KeysOf([]) == {}
  {
    hide Ok;
  }

  /**
   In every configuration, a `clear()` between a charge and its reply lets one unit too many through: the stale
   undo takes the newest stamp, which by then is another request's.
   */
  lemma ClearOverlapExceeds(cfg: Settings, lim: Limits, start: int, k: Key) returns (moves: seq<Move>)
    requires Fits(cfg, lim) && cfg.maxQueueSize != Some(0)
    ensures KeysOf(moves) == {k} && Spared(Play(cfg, lim, start, moves).side.mem, k)
    ensures InWindow(Released(Play(cfg, lim, start, moves).side.released, k), lim.strategy.windowMs,
              start + lim.strategy.windowMs)
            == cfg.maxRequests + 1
  {
    hide Moved, IncrementKey, DecrementKey, Ok, CanMove, Step, Play, Spared, Released, InWindow;
    var (n, end) := (cfg.maxRequests, start + lim.strategy.windowMs);
    moves := ForgottenCall(cfg, lim, start, k);
    UnitThenCap(lim, k, n, start);
    var w := Play(cfg, lim, start, moves);
    var (e0, e1) := (Entry(0, k, 1), Entry(1, k, n));
    var stale := QueueEvent(Reply(0, w.side.results[0]), end);
    StaleReplyUndoes(cfg, lim, w, 0, e0, end);
    UndoneThenUnit(lim, w.side.mem, k, n, start);
    PlaySnoc(cfg, lim, start, moves, stale);
    KeysSnoc(moves, stale);
    moves := moves + [stale];
    w := Play(cfg, lim, start, moves);
    var won := QueueEvent(Reply(1, w.side.results[1]), end);
    ReplyReleases(cfg, lim, w, e1, 1, end);
    PlaySnoc(cfg, lim, start, moves, won);
    KeysSnoc(moves, won);
    moves := moves + [won];
    w := Play(cfg, lim, start, moves);
    UndoDoneIdles(cfg, lim, w, 0, e0, end);
    PlaySnoc(cfg, lim, start, moves, QueueEvent(UndoDone(0), end));
    KeysSnoc(moves, QueueEvent(UndoDone(0), end));
    moves := moves + [QueueEvent(UndoDone(0), end)];
    w := Play(cfg, lim, start, moves);
    assert w.q.frames == map[];
    moves := OneRelease(cfg, lim, start, moves, k, 1, end, end);
    assert w.side.released == [] + [Release(k, n, end, end)];
    TwoCharges(Release(k, n, end, end), Release(k, 1, end, end), lim.strategy.windowMs);
    OneKeySpared(cfg, lim, start, moves, k);
  }

  lemma OneKeySpared(cfg: Settings, lim: Limits, start: int, moves: seq<Move>, k: Key)
    requires Fits(cfg, lim) && KeysOf(moves) == {k}
    ensures Spared(Play(cfg, lim, start, moves).side.mem, k)
  {
    hide Play, Ok, Spared;
    PlayHolds(cfg, lim, start, moves, {k});
  }

  lemma TwoCharges(x: Release, y: Release, w: int)
    requires x.key == y.key && x.chargedAt == y.chargedAt && w >= 1
    ensures InWindow(Released([] + [x] + [y], x.key), w, x.chargedAt) == x.cost + y.cost
  {
    var (a, b) := (Repeat(x.chargedAt, x.cost), Repeat(y.chargedAt, y.cost));
    ReleasedSnoc([], x, x.key);
    ReleasedSnoc([] + [x], y, x.key);
    assert [] + a == a;
    CountInConcat(a, b, x.chargedAt - w, x.chargedAt);
    CountInRepeat(x.chargedAt, x.cost, x.chargedAt - w, x.chargedAt);
    CountInRepeat(y.chargedAt, y.cost, x.chargedAt - w, x.chargedAt);
  }

  lemma ReleasedSnoc(released: seq<Release>, r: Release, k: Key)
    ensures Released(released + [r], k) ==
            if r.key == k then Released(released, k) + Repeat(r.chargedAt, r.cost) else Released(released, k)
  {
    assert (released + [r])[..|released|] == released;
    var was := Released(released, k);
    assert was + [] == was;
  }

  // ----- a store that evicts live keys ----------------------------------------------------------

  /** Distinct keys, as many as asked for. */
  lemma {:induction false} SomeKeys(keys: set<Key>, n: nat) returns (s: seq<Key>)
    requires n <= |keys|
    ensures |s| == n && Distinct(s) && forall x :: x in s ==> x in keys
    decreases n
  {
    s := [];
    if n > 0 {
      var x :| x in keys;
      var rest := SomeKeys(keys - {x}, n - 1);
      s := [x] + rest;
      assert s[1..] == rest;
    }
  }

  /** The store after `a` and then `done` were charged, all at `now`: nothing has been evicted yet. */
  ghost predicate Full(lim: Limits, m: Mem, a: Key, done: seq<Key>, now: int)
    requires lim.strategy.SlidingWindow?
  {
    && Ok(lim, m) && m.order == [a] + done && a in m.entries
    && !EntryExpired(lim.strategy, m.entries[a], now)
  }

  /** As long as there is room, a new key goes last. */
  lemma NewKeyLast(lim: Limits, m: Mem, a: Key, done: seq<Key>, b: Key, cap: Cost, n: Cost, now: int)
    requires lim.strategy.Valid() && lim.strategy.SlidingWindow? && Full(lim, m, a, done, now)
    requires b != a && b !in done && |m.order| < lim.maxKeys
    ensures Full(lim, IncrementKey(lim, m, b, Some(cap), n, now).0, a, done + [b], now)
  {
    IncrementKeyOk(lim, m, b, Some(cap), n, now);
    assert b !in m.entries;
    assert MakeRoom(lim, m, now) == m;
    hide Ok, Increment, EntryExpired;
    assert [a] + done + [b] == [a] + (done + [b]);
  }

  /** One more than there is room for: the oldest key goes, live as it is. */
  lemma OldestEvicted(lim: Limits, m: Mem, a: Key, done: seq<Key>, b: Key, cap: Cost, n: Cost, now: int)
    requires lim.strategy.Valid() && lim.strategy.SlidingWindow? && Full(lim, m, a, done, now)
    requires b != a && b !in done && |m.order| == lim.maxKeys
    ensures var r := IncrementKey(lim, m, b, Some(cap), n, now).0;
            Ok(lim, r) && a !in r.entries && !Spared(r, a)
  {
    IncrementKeyOk(lim, m, b, Some(cap), n, now);
    assert b !in m.entries;
    var next := DropHead(lim, m, now);
    assert MakeRoom(lim, m, now) == MakeRoom(lim, next, now) == next;
    hide Ok, Increment, EntryExpired;
    assert Report(lim, m, a, now) == Eviction(a, LruCap);
    assert next.evicted[|m.evicted|] == Eviction(a, LruCap);
  }

  lemma AbsentAllowed(lim: Limits, m: Mem, k: Key, cap: Cost, n: Cost, now: int)
    requires Ok(lim, m) && lim.strategy.SlidingWindow? && k !in m.entries && n <= cap
    ensures !IncrementKey(lim, m, k, Some(cap), n, now).1.isBlocked
  {
    OkEntry(lim, m, k);
    SlidingIncrementShape(lim.strategy, None, Some(cap), n, now);
    assert Cut([], now - lim.strategy.windowMs) == [];
    hide Ok, Claim, Increment;
  }

  lemma FirstFull(lim: Limits, a: Key, cap: Cost, now: int)
    requires lim.strategy.Valid() && lim.strategy.SlidingWindow?
    ensures Ok(lim, EMPTY) && Full(lim, IncrementKey(lim, EMPTY, a, Some(cap), cap, now).0, a, [], now)
    ensures !IncrementKey(lim, EMPTY, a, Some(cap), cap, now).1.isBlocked
  {
    EmptyOk(lim, []);
    IncrementKeyOk(lim, EMPTY, a, Some(cap), cap, now);
    AbsentAllowed(lim, EMPTY, a, cap, cap, now);
    SlidingIncrementShape(lim.strategy, None, Some(cap), cap, now);
    FirstStamps(lim.strategy.windowMs, cap, now);
    hide Ok, Increment, Cut;
    assert MakeRoom(lim, EMPTY, now) == EMPTY;
    assert [] + [a] == [a] + [];
  }

  lemma FirstStamps(w: int, cap: Cost, now: int)
    requires w >= 1
    ensures Cut([], now - w) == [] && |Cut([] + Repeat(now, cap), now - w)| == cap
  {
    hide Cut;
    var stamps := Repeat(now, cap);
    assert [] + stamps == stamps;
    CutKeepsLater(stamps, now - w);
    CutKeepsLater([], now - w);
  }

  /** What the moves so far have made: `a` released its cap, `done` one unit each, and the store is as full as that. */
  ghost predicate Filled(cfg: Settings, lim: Limits, start: int, moves: seq<Move>, a: Key, done: seq<Key>,
      keys: set<Key>)
    requires Fits(cfg, lim)
  {
    var w := Play(cfg, lim, start, moves);
    && Idle(w) && w.clock == start && Full(lim, w.side.mem, a, done, start)
    && Released(w.side.released, a) == Repeat(start, cfg.maxRequests) && ClearsApart(cfg, lim, start, moves)
      && KeysOf(moves) <= keys
  }

  /** Charge the first `n` of the other keys. */
  lemma {:induction false} FillStore(
    cfg: Settings, lim: Limits, start: int, a: Key, others: seq<Key>, n: nat, keys: set<Key>) returns (moves: seq<Move>)
    requires Fits(cfg, lim) && cfg.maxQueueSize != Some(0) && a in keys && a !in others && Distinct(others)
    requires n <= |others| && n < lim.maxKeys && forall x :: x in others ==> x in keys
    ensures Filled(cfg, lim, start, moves, a, others[..n], keys)
  {
    hide Play, IncrementKey, Ok, Full, Released, Distinct;
    if n == 0 {
      NoMoves(cfg, lim, start);
      FirstFull(lim, a, cfg.maxRequests, start);
      moves := OneRelease(cfg, lim, start, [], a, cfg.maxRequests, start, start);
      ReleasedSnoc([], Release(a, cfg.maxRequests, start, start), a);
      NoneReleased(a, cfg.maxRequests, start);
    } else {
      moves := FillStore(cfg, lim, start, a, others, n - 1, keys);
      var b := others[n - 1];
      DistinctAt(others, n - 1);
      FullFacts(lim, Play(cfg, lim, start, moves).side.mem, a, others[..n - 1], start);
      assert others[..n] == others[..n - 1] + [b];
      NewKeyLast(lim, Play(cfg, lim, start, moves).side.mem, a, others[..n - 1], b, cfg.maxRequests, 1, start);
      AbsentAllowed(lim, Play(cfg, lim, start, moves).side.mem, b, cfg.maxRequests, 1, start);
      ReleasedSnoc(Play(cfg, lim, start, moves).side.released, Release(b, 1, start, start), a);
      moves := OneRelease(cfg, lim, start, moves, b, 1, start, start);
    }
  }

  lemma NoneReleased(a: Key, n: Cost, now: int)
    ensures Released([], a) + Repeat(now, n) == Repeat(now, n)
  {
    assert [] + Repeat(now, n) == Repeat(now, n);
  }

  lemma FullFacts(lim: Limits, m: Mem, a: Key, done: seq<Key>, now: int)
    requires lim.strategy.SlidingWindow? && Full(lim, m, a, done, now)
    ensures Ok(lim, m) && |m.order| == 1 + |done| && forall b :: b != a && b !in done ==> b !in m.entries
  {
  }

  lemma {:induction false} DistinctAt(s: seq<Key>, i: nat)
    requires Distinct(s) && i < |s|
    ensures s[i] !in s[..i]
  {
    if i > 0 {
      DistinctAt(s[1..], i - 1);
      assert s[..i] == [s[0]] + s[1..][..i - 1];
      assert s[i] in s[1..];
    }
  }

  /**
   With one more key than the store may hold: charge `a` its cap, then all the others, which evicts it live, and then
   `a` its cap again, all at one instant.
   */
  lemma EvictionExceeds(cfg: Settings, lim: Limits, start: int, keys: set<Key>, a: Key) returns (moves: seq<Move>)
    requires Fits(cfg, lim) && cfg.maxQueueSize != Some(0) && !Roomy(lim, keys) && a in keys
    ensures KeysOf(moves) <= keys && ClearsApart(cfg, lim, start, moves)
    ensures !Undisturbed(cfg, lim, start, moves, a)
    ensures InWindow(Released(Play(cfg, lim, start, moves).side.released, a), lim.strategy.windowMs, start)
            == 2 * cfg.maxRequests
  {
    hide Play, IncrementKey, Ok, Full, Released, Distinct, InWindow, Spared, ClearsApart;
    var (cap, n) := (cfg.maxRequests, lim.maxKeys);
    var others := SomeKeys(keys - {a}, n);
    moves := FillStore(cfg, lim, start, a, others, n - 1, keys);
    var m := Play(cfg, lim, start, moves).side.mem;
    var b := others[n - 1];
    DistinctAt(others, n - 1);
    FullFacts(lim, m, a, others[..n - 1], start);
    OldestEvicted(lim, m, a, others[..n - 1], b, cap, 1, start);
    AbsentAllowed(lim, m, b, cap, 1, start);
    ReleasedSnoc(Play(cfg, lim, start, moves).side.released, Release(b, 1, start, start), a);
    moves := OneRelease(cfg, lim, start, moves, b, 1, start, start);
    m := Play(cfg, lim, start, moves).side.mem;
    AbsentAllowed(lim, m, a, cap, cap, start);
    IncrementGrows(lim, m, a, Some(cap), cap, start);
    SparedBefore(m, IncrementKey(lim, m, a, Some(cap), cap, start).0, a);
    ReleasedSnoc(Play(cfg, lim, start, moves).side.released, Release(a, cap, start, start), a);
    moves := OneRelease(cfg, lim, start, moves, a, cap, start, start);
    TwiceAtOnce(cap, start, lim.strategy.windowMs);
  }

  lemma TwiceAtOnce(cap: Cost, now: int, w: int)
    requires w >= 1
    ensures InWindow(Repeat(now, cap) + Repeat(now, cap), w, now) == 2 * cap
  {
    CountInConcat(Repeat(now, cap), Repeat(now, cap), now - w, now);
    CountInRepeat(now, cap, now - w, now);
  }

  // ----- exactly when the bound can be relied on --------------------------------------------------

  ghost predicate RunReleasesWithinCap(cfg: Settings, lim: Limits, start: int, moves: seq<Move>, k: Key, last: int)
    requires Fits(cfg, lim)
  {
    InWindow(Released(Play(cfg, lim, start, moves).side.released, k), lim.strategy.windowMs, last) <= cfg.maxRequests
  }

  /**
   Every run that requests only these keys, and overlaps clears with store calls only if that is allowed, is within
   the cap.
   */
  ghost predicate QuotaHolds(cfg: Settings, lim: Limits, start: int, keys: set<Key>, overlapping: bool)
    requires Fits(cfg, lim)
  {
    forall moves, k, last :: KeysOf(moves) <= keys && (overlapping || ClearsApart(cfg, lim, start, moves))
                             ==> RunReleasesWithinCap(cfg, lim, start, moves, k, last)
  }

  /**
   The cap holds for a set of keys exactly when the store has room for all of them and clears do not overlap store
   calls.
   */
  lemma QuotaHoldsIff(cfg: Settings, lim: Limits, start: int, keys: set<Key>, overlapping: bool)
    requires Fits(cfg, lim) && cfg.maxQueueSize != Some(0) && keys != {}
    ensures QuotaHolds(cfg, lim, start, keys, overlapping) <==> Roomy(lim, keys) && !overlapping
  {
    hide Play, Ok, Released, InWindow, ClearsApart, Spared;
    var a :| a in keys;
    if overlapping {
      var moves := ClearOverlapExceeds(cfg, lim, start, a);
      assert !RunReleasesWithinCap(cfg, lim, start, moves, a, start + lim.strategy.windowMs);
    } else if !Roomy(lim, keys) {
      var moves := EvictionExceeds(cfg, lim, start, keys, a);
      assert !RunReleasesWithinCap(cfg, lim, start, moves, a, start);
    } else {
      forall moves, k, last | KeysOf(moves) <= keys && ClearsApart(cfg, lim, start, moves)
        ensures RunReleasesWithinCap(cfg, lim, start, moves, k, last)
      {
        PlayHolds(cfg, lim, start, moves, keys);
        ReleasedWithinCap(cfg, lim, start, moves, k, last);
      }
    }
  }
}
