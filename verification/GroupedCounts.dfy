/**
 What grouped windows leave behind: the count of every slot after a consume, at the instant of
 the request and at any later time, and exactly when a draft leaves no trace.

 The engine gives back from the oldest end. A sliding slot that was charged and given back has
 lost its oldest stamps and kept the request's, so its count can be too high later on.
 */
module GroupedCounts {
  import opened Entries
  import opened EntryLaws
  import opened MemoryTable
  import opened Composition
  import opened GroupedWindows
  import opened TidyRuns

  ghost predicate WindowSlot(slot: Slot, m: Mem, k: Key) {
    Ok(slot.lim, m) && !slot.lim.strategy.TokenBucket? && NonNegative(Lookup(m, k))
  }

  ghost predicate SlotInOrder(slot: Slot, m: Mem, k: Key, now: int) {
    k in m.entries && m.entries[k].Sliding? ==> InOrder(m.entries[k].stamps, now)
  }

  ghost function CountOf(slot: Slot, m: Mem, k: Key, at: int): (n: int)
    requires Ok(slot.lim, m) && !slot.lim.strategy.TokenBucket?
  {
    OkEntry(slot.lim, m, k);
    LiveCount(slot.lim.strategy, Lookup(m, k), at)
  }

  /** Every store that a run with a forward clock leaves behind is such a slot. */
  lemma RunsLeaveOrder(slot: Slot, ops: seq<StoreOp>, k: Key, now: int)
    requires slot.lim.strategy.Valid() && !slot.lim.strategy.TokenBucket? && Forward(ops, now)
    ensures WindowSlot(slot, Exec(slot.lim, ops), k) && SlotInOrder(slot, Exec(slot.lim, ops), k, now)
  {
    hide Ok, Exec, InOrder;
    RunTidy(slot.lim, ops, now);
    var m := Exec(slot.lim, ops);
    assert k in m.entries ==> Tidy(m.entries[k], now);
  }

  // ----- one slot, charged and given back ------------------------------------------------------

  /** The count of a window entry at `at`, after `n` units were charged at `now` and given back from the oldest end. */
  ghost function ReturnedCount(cfg: Strategy, s: Option<KeyState>, n: Cost, now: int, at: int): (r: int)
    requires cfg.Valid() && !cfg.TokenBucket? && MatchesOption(cfg, s)
  {
    if cfg.FixedWindow? then LiveCount(cfg, s, at)
    else if at >= now + cfg.windowMs then 0
    else
      var before := LiveStamps(cfg, s, now);
      var still := |Cut(before, at - cfg.windowMs)|;
      still + Min(n, |before| - still)
  }

  lemma LiveInOrder(cfg: Strategy, s: Option<KeyState>, now: int)
    requires cfg.SlidingWindow? && MatchesOption(cfg, s) && (s.Some? ==> InOrder(s.value.stamps, now))
    ensures InOrder(LiveStamps(cfg, s, now), now)
  {
    var cur := Current(s, now);
    CutInOrder(if cur.Some? then cur.value.stamps else [], now - cfg.windowMs, now);
  }

  /** A window later, an undo from the oldest end has left nothing that counts. */
  lemma NothingLater(cfg: Strategy, s: Option<KeyState>, cap: Option<int>, n: Cost, now: int, at: int)
    requires cfg.Valid() && cfg.SlidingWindow? && MatchesOption(cfg, s) && (s.Some? ==> InOrder(s.value.stamps, now))
    requires now + cfg.windowMs <= at
    ensures LiveCount(cfg, s, at) == 0
    ensures LiveCount(cfg, DecrementOption(cfg, Some(Increment(cfg, s, cap, n, now).0), n, false), at) == 0
  {
    LiveInOrder(cfg, s, now);
    SlidingIncrementShape(cfg, s, cap, n, now);
    hide Increment, Cut;
    var (live, lo) := (LiveStamps(cfg, s, now), at - cfg.windowMs);
    CutDropsEarlier((live + Repeat(now, n))[Min(n, |live| + n)..], lo);
    if s.Some? {
      CutDropsEarlier(s.value.stamps, lo);
    }
    CutDropsEarlier([], lo);
  }

  lemma OldestUndoCount(cfg: Strategy, s: Option<KeyState>, cap: Option<int>, n: Cost, now: int, at: int)
    requires cfg.Valid() && !cfg.TokenBucket? && MatchesOption(cfg, s) && NonNegative(s) && now <= at
    requires s.Some? && s.value.Sliding? ==> InOrder(s.value.stamps, now)
    ensures LiveCount(cfg, DecrementOption(cfg, Some(Increment(cfg, s, cap, n, now).0), n, false), at)
            == ReturnedCount(cfg, s, n, now, at)
  {
    if cfg.FixedWindow? {
      FixedUndoInvisible(cfg, s, cap, n, now, at, false);
    } else if at >= now + cfg.windowMs {
      NothingLater(cfg, s, cap, n, now, at);
    } else {
      LiveInOrder(cfg, s, now);
      OldestUndoDrift(cfg, s, cap, n, now, at);
      OldestUndoClearsWall(cfg, s, cap, n, now, at);
      hide Increment, Cut, DecrementOption, LiveCount;
    }
  }

  /** Nothing that counted at `now` has gone by `at`, or the request itself would be out of the window. */
  ghost predicate Settled(slot: Slot, m: Mem, req: Request, at: int)
    requires WindowSlot(slot, m, req.key)
  {
    || slot.lim.strategy.FixedWindow?
    || at >= req.now + slot.lim.strategy.windowMs
    || CountOf(slot, m, req.key, at) == CountOf(slot, m, req.key, req.now)
  }

  /** Giving back is invisible at `at` exactly when the slot is settled there. */
  lemma ReturnInvisibleIff(cfg: Strategy, s: Option<KeyState>, n: Cost, now: int, at: int)
    requires cfg.Valid() && !cfg.TokenBucket? && MatchesOption(cfg, s) && now <= at
    requires s.Some? && s.value.Sliding? ==> InOrder(s.value.stamps, now)
    ensures ReturnedCount(cfg, s, n, now, at) >= LiveCount(cfg, s, at)
    ensures ReturnedCount(cfg, s, n, now, at) == LiveCount(cfg, s, at)
            <==> cfg.FixedWindow? || at >= now + cfg.windowMs || LiveCount(cfg, s, at) == LiveCount(cfg, s, now)
  {
    if cfg.SlidingWindow? {
      if at >= now + cfg.windowMs {
        NothingLater(cfg, s, None, n, now, at);
      } else {
        var stamps := if s.Some? then s.value.stamps else [];
        CutCut(stamps, now - cfg.windowMs, at - cfg.windowMs);
        assert Cut([], at - cfg.windowMs) == [] == Cut([], now - cfg.windowMs);
        hide Cut;
      }
    }
  }

  // ----- every slot, in every case ---------------------------------------------------------------

  datatype Fate = Untouched | Kept | Returned

  /** What becomes of slot `j`'s charge, from where the request stopped. */
  ghost function FateOf(slots: seq<Slot>, mems: seq<Mem>, req: Request, j: nat): (f: Fate)
    requires GroupOk(slots, mems) && j < |slots|
  {
    var stop := Stop(slots, mems, req);
    if !slots[j].fault.Up? || j > stop then Untouched
    else if stop == |slots| then Kept
    else if slots[stop].fault.Throws? then Returned
    else if j == stop then (if req.draft && !DownBefore(slots, stop) then Returned else Kept)
    else if req.draft && slots[stop].fault.Up? && DownBefore(slots, stop) then Kept
    else Returned
  }

  lemma FinalFate(slots: seq<Slot>, mems: seq<Mem>, req: Request, j: nat)
    requires GroupOk(slots, mems) && j < |slots|
    ensures Ok(slots[j].lim, mems[j])
    ensures FinalAt(slots, mems, req, j) == match FateOf(slots, mems, req, j)
            case Untouched => mems[j]
            case Kept => Charged(slots[j], mems[j], req)
            case Returned => GivenBack(slots[j], Charged(slots[j], mems[j], req), req)
  {
    hide Ok, IncrementKey, StopFrom, Answers, DecrementKey;
    VerdictIff(slots, mems, req);
  }

  ghost predicate AllInOrder(slots: seq<Slot>, mems: seq<Mem>, req: Request) {
    && GroupOk(slots, mems)
    && forall j :: 0 <= j < |slots| ==>
         WindowSlot(slots[j], mems[j], req.key) && SlotInOrder(slots[j], mems[j], req.key, req.now)
  }

  lemma ReturnedSlot(slot: Slot, m: Mem, req: Request, at: int)
    requires WindowSlot(slot, m, req.key) && SlotInOrder(slot, m, req.key, req.now) && slot.fault.Up? && req.now <= at
    ensures slot.lim.strategy.Valid() && MatchesOption(slot.lim.strategy, Lookup(m, req.key))
    ensures CountOf(slot, GivenBack(slot, Charged(slot, m, req), req), req.key, at)
            == ReturnedCount(slot.lim.strategy, Lookup(m, req.key), req.n, req.now, at)
  {
    hide Ok, IncrementKey, DecrementKey, LiveCount, Increment, DecrementOption, InOrder;
    IncrementedEntry(slot.lim, m, req.key, Some(slot.cap), req.n, req.now);
    DecrementedEntry(slot.lim, Charged(slot, m, req), req.key, req.n, false);
    OldestUndoCount(slot.lim.strategy, Lookup(m, req.key), Some(slot.cap), req.n, req.now, at);
  }

  /**
   Every slot, in every case, at any time from the request on: untouched slots are the same stores, kept
   charges count as the slot's own increment, and returned ones leave the count as it was, except for
   sliding slots, which keep one unit per stamp that has expired since, up to the cost.
   */
  lemma SlotsLeftWith(slots: seq<Slot>, mems: seq<Mem>, req: Request, j: nat, at: int)
    requires GroupOk(slots, mems) && j < |slots| && req.now <= at
    requires WindowSlot(slots[j], mems[j], req.key) && SlotInOrder(slots[j], mems[j], req.key, req.now)
    ensures slots[j].lim.strategy.Valid() && MatchesOption(slots[j].lim.strategy, Lookup(mems[j], req.key))
    ensures var (slot, m, r) := (slots[j], mems[j], FinalAt(slots, mems, req, j));
            && Ok(slot.lim, r)
            && match FateOf(slots, mems, req, j)
               case Untouched => r == m
               case Kept => CountOf(slot, r, req.key, at) == CountOf(slot, Charged(slot, m, req), req.key, at)
               case Returned =>
                 CountOf(slot, r, req.key, at)
                 == ReturnedCount(slot.lim.strategy, Lookup(m, req.key), req.n, req.now, at)
  {
    hide Ok, FinalAt, FateOf, CountOf, ReturnedCount, Charged, GivenBack, InOrder;
    FinalFate(slots, mems, req, j);
    OkEntry(slots[j].lim, mems[j], req.key);
    if FateOf(slots, mems, req, j).Returned? {
      ReturnedUp(slots, mems, req, j);
      ReturnedSlot(slots[j], mems[j], req, at);
    }
  }

  lemma ReturnedUp(slots: seq<Slot>, mems: seq<Mem>, req: Request, j: nat)
    requires GroupOk(slots, mems) && j < |slots|
    ensures !FateOf(slots, mems, req, j).Untouched? ==> slots[j].fault.Up?
  {
    hide Ok, Stop;
  }

  lemma ChargeAndReturn(slot: Slot, m: Mem, req: Request)
    requires WindowSlot(slot, m, req.key) && slot.fault.Up?
    ensures var c := Charged(slot, m, req);
            && CountOf(slot, c, req.key, req.now) == CountOf(slot, m, req.key, req.now) + req.n
            && CountOf(slot, GivenBack(slot, c, req), req.key, req.now) == CountOf(slot, m, req.key, req.now)
  {
    hide Ok, IncrementKey, DecrementKey, LiveCount, Increment, DecrementOption;
    IncrementedEntry(slot.lim, m, req.key, Some(slot.cap), req.n, req.now);
    DecrementedEntry(slot.lim, Charged(slot, m, req), req.key, req.n, false);
    IncrementCharges(slot.lim.strategy, Lookup(m, req.key), Some(slot.cap), req.n, req.now);
    ImmediateUndoRestoresCount(slot.lim.strategy, Lookup(m, req.key), Some(slot.cap), req.n, req.now, false);
  }

  /** At the instant of the request: a kept charge counts its cost, everything else is as before. */
  lemma SlotsLeftWithNow(slots: seq<Slot>, mems: seq<Mem>, req: Request, j: nat)
    requires GroupOk(slots, mems) && j < |slots| && WindowSlot(slots[j], mems[j], req.key)
    ensures Ok(slots[j].lim, FinalAt(slots, mems, req, j))
    ensures CountOf(slots[j], FinalAt(slots, mems, req, j), req.key, req.now)
            == CountOf(slots[j], mems[j], req.key, req.now) + if FateOf(slots, mems, req, j).Kept? then req.n else 0
  {
    hide Ok, FinalAt, FateOf, Charged, GivenBack, CountOf;
    FinalFate(slots, mems, req, j);
    ReturnedUp(slots, mems, req, j);
    if slots[j].fault.Up? {
      ChargeAndReturn(slots[j], mems[j], req);
    }
  }

  /**
   With every store working or throwing: a block keeps only the blocking slot's charge, in draft mode not even that; a
   throw keeps none.
   */
  lemma BlockedOrThrownKeeps(slots: seq<Slot>, mems: seq<Mem>, req: Request, j: nat)
    requires GroupOk(slots, mems) && j < |slots| && (forall i :: 0 <= i < |slots| ==> !slots[i].fault.Down?)
    requires Stop(slots, mems, req) < |slots|
    ensures var stop := Stop(slots, mems, req);
            && (FateOf(slots, mems, req, j).Kept? <==> j == stop && slots[stop].fault.Up? && !req.draft)
            && (FateOf(slots, mems, req, j).Untouched? <==> !slots[j].fault.Up? || j > stop)
            && (Verdict(slots, mems, req).None? <==> slots[stop].fault.Throws?)
            && (Verdict(slots, mems, req).Some? ==> Verdict(slots, mems, req).value.result.isBlocked)
  {
    hide Ok, Verdict, StopFrom;
    VerdictIff(slots, mems, req);
  }

  /** So at the instant of the request only a slot that blocks outside draft mode has anything more. */
  lemma BlockedOrThrownLeavesOthers(slots: seq<Slot>, mems: seq<Mem>, req: Request, j: nat)
    requires GroupOk(slots, mems) && j < |slots| && WindowSlot(slots[j], mems[j], req.key)
    requires (forall i :: 0 <= i < |slots| ==> !slots[i].fault.Down?) && Stop(slots, mems, req) < |slots|
    ensures var (stop, m) := (Stop(slots, mems, req), FinalAt(slots, mems, req, j));
            && Ok(slots[j].lim, m)
            && CountOf(slots[j], m, req.key, req.now) == CountOf(slots[j], mems[j], req.key, req.now)
               + (if j == stop && slots[stop].fault.Up? && !req.draft then req.n else 0)
            && (Verdict(slots, mems, req).Some? ==> Verdict(slots, mems, req).value.result.isBlocked)
  {
    hide Ok, FinalAt, Verdict, Stop, CountOf, FateOf;
    SlotsLeftWithNow(slots, mems, req, j);
    BlockedOrThrownKeeps(slots, mems, req, j);
  }

  // ----- drafts -------------------------------------------------------------------------------------

  ghost predicate SlotNoTrace(slots: seq<Slot>, mems: seq<Mem>, req: Request, j: nat, at: int)
    requires AllInOrder(slots, mems, req) && j < |slots|
  {
    Ok(slots[j].lim, FinalAt(slots, mems, req, j))
      && CountOf(slots[j], FinalAt(slots, mems, req, j), req.key, at) == CountOf(slots[j], mems[j], req.key, at)
  }

  /** At `at`, every slot counts what it would count had nobody called. */
  ghost predicate NoTrace(slots: seq<Slot>, mems: seq<Mem>, req: Request, at: int)
    requires AllInOrder(slots, mems, req)
  {
    forall j :: 0 <= j < |slots| ==> SlotNoTrace(slots, mems, req, j, at)
  }

  ghost predicate SettledUpTo(slots: seq<Slot>, mems: seq<Mem>, req: Request, stop: nat, at: int)
    requires AllInOrder(slots, mems, req) && stop <= |slots|
  {
    forall j :: 0 <= j < stop && slots[j].fault.Up? ==> Settled(slots[j], mems[j], req, at)
  }

  lemma SlotTrace(slots: seq<Slot>, mems: seq<Mem>, req: Request, j: nat, at: int)
    requires AllInOrder(slots, mems, req) && j < |slots| && req.now <= at && !FateOf(slots, mems, req, j).Kept?
    ensures SlotNoTrace(slots, mems, req, j, at) <==>
            (FateOf(slots, mems, req, j).Returned? ==> Settled(slots[j], mems[j], req, at))
  {
    hide Ok, FinalAt, FateOf, InOrder, LiveCount, ReturnedCount;
    SlotsLeftWith(slots, mems, req, j, at);
    ReturnInvisibleIff(slots[j].lim.strategy, Lookup(mems[j], req.key), req.n, req.now, at);
  }

  lemma DraftFates(slots: seq<Slot>, mems: seq<Mem>, req: Request, j: nat)
    requires GroupOk(slots, mems) && j < |slots| && req.draft
    requires Stop(slots, mems, req) < |slots| && slots[Stop(slots, mems, req)].fault.Up?
    requires !DownBefore(slots, Stop(slots, mems, req))
    ensures FateOf(slots, mems, req, j) == if slots[j].fault.Up? && j <= Stop(slots, mems, req) then Returned
            else Untouched
  {
    hide Ok, Stop;
  }

  /**
   A draft that a working slot blocks. If an unavailable slot had let it through before, the merged result
   reads as allowed, nothing is given back, and the trace shows at once. Otherwise it shows at `at` exactly
   when some sliding slot it charged has since lost a stamp that counted then.
   */
  lemma DraftTraceAtIff(slots: seq<Slot>, mems: seq<Mem>, req: Request, at: int)
    requires AllInOrder(slots, mems, req) && req.draft && req.now <= at
    requires Stop(slots, mems, req) < |slots| && slots[Stop(slots, mems, req)].fault.Up?
    ensures var stop := Stop(slots, mems, req);
            && (!DownBefore(slots, stop) ==>
              (NoTrace(slots, mems, req, at) <==> SettledUpTo(slots, mems, req, stop + 1, at)))
            && (DownBefore(slots, stop) ==> !NoTrace(slots, mems, req, req.now) && Verdict(slots, mems, req).Some?)
            && (DownBefore(slots, stop) ==> !Verdict(slots, mems, req).value.result.isBlocked)
  {
    hide Ok, Verdict, Stop, Settled, SlotNoTrace;
    VerdictIff(slots, mems, req);
    var stop := Stop(slots, mems, req);
    if DownBefore(slots, stop) {
      KeptShows(slots, mems, req, stop);
    } else {
      forall j | 0 <= j < |slots|
        ensures SlotNoTrace(slots, mems, req, j, at) <==>
                (slots[j].fault.Up? && j <= stop ==> Settled(slots[j], mems[j], req, at))
      {
        DraftFates(slots, mems, req, j);
        SlotTrace(slots, mems, req, j, at);
      }
      assert NoTrace(slots, mems, req, at) ==> forall j :: 0 <= j < stop + 1 && slots[j].fault.Up? ==>
        SlotNoTrace(slots, mems, req, j, at);
    }
  }

  lemma KeptShows(slots: seq<Slot>, mems: seq<Mem>, req: Request, j: nat)
    requires AllInOrder(slots, mems, req) && j < |slots| && FateOf(slots, mems, req, j).Kept?
    ensures !SlotNoTrace(slots, mems, req, j, req.now)
  {
    hide Ok, FinalAt, FateOf, InOrder, LiveCount;
    SlotsLeftWithNow(slots, mems, req, j);
  }

  /**
   Nothing in the slot can expire before the request would: no live stamps, or all of this instant and without an
   earlier wall.
   */
  ghost predicate Steady(slot: Slot, m: Mem, k: Key, now: int)
    requires WindowSlot(slot, m, k)
  {
    OkEntry(slot.lim, m, k);
    slot.lim.strategy.FixedWindow? ||
    (var live := LiveStamps(slot.lim.strategy, Lookup(m, k), now);
     live == []
       || (live[0] == now && (m.entries[k].wall.None? || m.entries[k].wall.value >= now + slot.lim.strategy.windowMs)))
  }

  /** When the count changes: some live stamp ages out before the request does, or the wall comes first. */
  lemma SteadyIff(slot: Slot, m: Mem, req: Request) returns (at: int)
    requires WindowSlot(slot, m, req.key) && SlotInOrder(slot, m, req.key, req.now)
    ensures at >= req.now && (Steady(slot, m, req.key, req.now) <==> Settled(slot, m, req, at))
    ensures Steady(slot, m, req.key, req.now) ==> forall t :: t >= req.now ==> Settled(slot, m, req, t)
  {
    at := req.now;
    OkEntry(slot.lim, m, req.key);
    hide Ok;
    var cfg := slot.lim.strategy;
    if cfg.SlidingWindow? && LiveStamps(cfg, Lookup(m, req.key), req.now) != [] {
      at := LossAt(cfg, m.entries[req.key], req.now);
      if Steady(slot, m, req.key, req.now) {
        forall t | t >= req.now ensures Settled(slot, m, req, t) {
          if t < req.now + cfg.windowMs {
            SteadyCount(cfg, m.entries[req.key], req.now, t);
          }
        }
      }
    } else if cfg.SlidingWindow? {
      forall t | t >= req.now ensures Settled(slot, m, req, t) {
        EmptyStays(cfg, Lookup(m, req.key), req.now, t);
      }
    }
  }

  lemma EmptyStays(cfg: Strategy, s: Option<KeyState>, now: int, t: int)
    requires cfg.SlidingWindow? && MatchesOption(cfg, s) && LiveStamps(cfg, s, now) == [] && now <= t
    ensures LiveCount(cfg, s, t) == 0 == LiveCount(cfg, s, now)
  {
    CutCut(if s.Some? then s.value.stamps else [], now - cfg.windowMs, t - cfg.windowMs);
  }

  lemma SteadyCount(cfg: Strategy, s: KeyState, now: int, t: int)
    requires cfg.SlidingWindow? && cfg.windowMs >= 1 && s.Sliding? && InOrder(s.stamps, now)
    requires now <= t < now + cfg.windowMs
    requires LiveStamps(cfg, Some(s), now) != [] && LiveStamps(cfg, Some(s), now)[0] == now
    requires s.wall.None? || s.wall.value >= now + cfg.windowMs
    ensures LiveCount(cfg, Some(s), t) == LiveCount(cfg, Some(s), now)
  {
    var live := LiveStamps(cfg, Some(s), now);
    LiveInOrder(cfg, Some(s), now);
    assert forall i :: 0 <= i < |live| ==> live[0] <= live[i];
    CutKeepsLater(live, t - cfg.windowMs);
    CutCut(s.stamps, now - cfg.windowMs, t - cfg.windowMs);
  }

  /**
   The first time at which something that counted at `now` no longer does, if that is before the request's own end.
   */
  lemma LossAt(cfg: Strategy, s: KeyState, now: int) returns (at: int)
    requires cfg.SlidingWindow? && cfg.windowMs >= 1 && s.Sliding? && InOrder(s.stamps, now)
    requires LiveStamps(cfg, Some(s), now) != []
    ensures now <= at
    ensures !(LiveStamps(cfg, Some(s), now)[0] == now && (s.wall.None? || s.wall.value >= now + cfg.windowMs))
            ==> at < now + cfg.windowMs && LiveCount(cfg, Some(s), at) < LiveCount(cfg, Some(s), now)
  {
    var live := LiveStamps(cfg, Some(s), now);
    LiveInOrder(cfg, Some(s), now);
    at := now;
    if live[0] < now {
      at := live[0] + cfg.windowMs;
      CutCut(s.stamps, now - cfg.windowMs, at - cfg.windowMs);
      assert Cut(live, at - cfg.windowMs) == Cut(live[1..], at - cfg.windowMs);
    } else if s.wall.Some? && s.wall.value < now + cfg.windowMs {
      at := s.wall.value;
    }
  }

  /**
   A draft that a working slot blocks leaves no trace at any later time exactly when no unavailable slot came before
   and every slot it charged is steady.
   */
  lemma DraftLeavesNoTraceIff(slots: seq<Slot>, mems: seq<Mem>, req: Request)
    requires AllInOrder(slots, mems, req) && req.draft
    requires Stop(slots, mems, req) < |slots| && slots[Stop(slots, mems, req)].fault.Up?
    ensures (forall at :: at >= req.now ==> NoTrace(slots, mems, req, at))
            <==> (!DownBefore(slots, Stop(slots, mems, req))
                  && forall j :: 0 <= j <= Stop(slots, mems, req) && slots[j].fault.Up? ==>
                    Steady(slots[j], mems[j], req.key, req.now))
  {
    hide Ok, Verdict, Stop, Settled, NoTrace, Steady, FinalAt, InOrder;
    var stop := Stop(slots, mems, req);
    DraftTraceAtIff(slots, mems, req, req.now);
    if !DownBefore(slots, stop) {
      if forall j :: 0 <= j <= stop && slots[j].fault.Up? ==> Steady(slots[j], mems[j], req.key, req.now) {
        forall at | at >= req.now ensures NoTrace(slots, mems, req, at) {
          forall j | 0 <= j < stop + 1 && slots[j].fault.Up? ensures Settled(slots[j], mems[j], req, at) {
            var _ := SteadyIff(slots[j], mems[j], req);
          }
          DraftTraceAtIff(slots, mems, req, at);
        }
      } else {
        var j :| 0 <= j <= stop && slots[j].fault.Up? && !Steady(slots[j], mems[j], req.key, req.now);
        var at := SteadyIff(slots[j], mems[j], req);
        DraftTraceAtIff(slots, mems, req, at);
      }
    }
  }

  /**
   One working sliding slot with a stamp at 0: a draft at 900 is given back, and yet the slot counts one at 1500,
   where it would count none.
   */
  lemma DraftTraceRemains(k: Key)
    ensures var slot := Slot(Limits(SlidingWindow(1000, 1), 0), 1, Up);
            var m := Mem([k], map[k := Sliding([0], None)], []);
            var req := Request(k, 1, 900, true);
            && AllInOrder([slot], [m], req) && Stop([slot], [m], req) == 0 && !DownBefore([slot], 0)
            && FateOf([slot], [m], req, 0).Returned? && Ok(slot.lim, FinalAt([slot], [m], req, 0))
            && CountOf(slot, FinalAt([slot], [m], req, 0), k, 1500) == 1 && CountOf(slot, m, k, 1500) == 0
  {
    var slot := Slot(Limits(SlidingWindow(1000, 1), 0), 1, Up);
    var m := Mem([k], map[k := Sliding([0], None)], []);
    var req := Request(k, 1, 900, true);
    OneSlot(k);
    OneStamp(slot.lim.strategy);
    hide Ok, Increment, StopFrom, FinalAt, ReturnedCount, LiveCount;
    IncrementedEntry(slot.lim, m, k, Some(1), 1, 900);
    StopAt([slot], [m], req, 0);
    DraftFates([slot], [m], req, 0);
    SlotsLeftWith([slot], [m], req, 0, 1500);
  }

  lemma OneSlot(k: Key)
    ensures var (slot, m) := (Slot(Limits(SlidingWindow(1000, 1), 0), 1, Up),
              Mem([k], map[k := Sliding([0], None)], []));
            Ok(slot.lim, m) && AllInOrder([slot], [m], Request(k, 1, 900, true))
  {
    var m := Mem([k], map[k := Sliding([0], None)], []);
    assert m.order[1..] == [] && Distinct([]);
  }

  lemma OneStamp(cfg: Strategy)
    requires cfg == SlidingWindow(1000, 1)
    ensures var s := Some(Sliding([0], None));
            && Increment(cfg, s, Some(1), 1, 900).1.isBlocked
            && ReturnedCount(cfg, s, 1, 900, 1500) == 1 && LiveCount(cfg, s, 1500) == 0
  {
    SlidingIncrementShape(cfg, Some(Sliding([0], None)), Some(1), 1, 900);
    assert Cut([0], -100) == [0] && Cut([0], 500) == [];
    hide Increment;
  }
}
