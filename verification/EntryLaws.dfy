/**
 Laws of one key's quota state: what an increment charges, what an undo gives
 back, and what refilling in pieces amounts to.
 */
module EntryLaws {
  import opened Entries

  ghost predicate Ascending(s: seq<int>) {
    forall i, j :: 0 <= i <= j < |s| ==> s[i] <= s[j]
  }

  ghost predicate NonNegative(s: Option<KeyState>) {
    s.Some? && s.value.Fixed? ==> s.value.count >= 0
  }

  lemma SlidingIncrementShape(cfg: Strategy, s: Option<KeyState>, override: Option<int>, n: Cost, now: int)
    requires cfg.Valid() && cfg.SlidingWindow? && MatchesOption(cfg, s)
    ensures var (next, res) := Increment(cfg, s, override, n, now);
            && next == Sliding(LiveStamps(cfg, s, now) + Repeat(now, n), None)
            && (res.isBlocked <==> |LiveStamps(cfg, s, now)| + n > CapFor(cfg, override))
  {
    hide Refill, Cut;
  }

  /** A window increment charges exactly its cost, and blocks exactly when the charged count passes the cap. */
  lemma IncrementCharges(cfg: Strategy, s: Option<KeyState>, override: Option<int>, n: Cost, now: int)
    requires cfg.Valid() && !cfg.TokenBucket? && MatchesOption(cfg, s)
    ensures var (next, r) := Increment(cfg, s, override, n, now);
            && LiveCount(cfg, Some(next), now) == LiveCount(cfg, s, now) + n
            && r.totalHits == LiveCount(cfg, Some(next), now)
            && (r.isBlocked <==> r.totalHits > CapFor(cfg, override))
            && r.remaining == Max(0, CapFor(cfg, override) - r.totalHits)
            && now < r.resetTime
  {
    hide Refill;
    if cfg.SlidingWindow? {
      var next := Increment(cfg, s, override, n, now).0;
      CutKeepsLater(next.stamps, now - cfg.windowMs);
    }
  }

  /** When a window entry that takes an increment at `now` next gives something back by itself. */
  ghost function ResetOf(cfg: Strategy, s: Option<KeyState>, now: int): (t: int)
    requires MatchesOption(cfg, s) && !cfg.TokenBucket?
  {
    if cfg.FixedWindow? then (if s.Some? && now < s.value.resetTime then s.value.resetTime else now + cfg.windowMs)
    else (if LiveStamps(cfg, s, now) == [] then now else LiveStamps(cfg, s, now)[0]) + cfg.windowMs
  }

  lemma ResetIsOf(cfg: Strategy, s: Option<KeyState>, override: Option<int>, n: Cost, now: int)
    requires cfg.Valid() && !cfg.TokenBucket? && MatchesOption(cfg, s)
    ensures Increment(cfg, s, override, n, now).1.resetTime == ResetOf(cfg, s, now)
  {
    hide Cut, BucketIncrement;
  }

  /** The reported reset time is the first instant at which any of the reported hits stops counting. */
  lemma ResetIsFirstDrop(cfg: Strategy, s: Option<KeyState>, override: Option<int>, n: Cost, now: int, at: int)
    requires cfg.Valid() && !cfg.TokenBucket? && MatchesOption(cfg, s) && NonNegative(s) && now <= at
    requires cfg.SlidingWindow? ==>
               var live := LiveStamps(cfg, s, now); Ascending(live) && forall i :: 0 <= i < |live| ==> live[i] <= now
    ensures var (next, r) := Increment(cfg, s, override, n, now);
            && r.resetTime == ResetOf(cfg, s, now)
            && (at < r.resetTime ==> LiveCount(cfg, Some(next), at) == r.totalHits)
            && (at >= r.resetTime ==> LiveCount(cfg, Some(next), at) < r.totalHits)
  {
    if cfg.SlidingWindow? {
      SlidingIncrementShape(cfg, s, override, n, now);
      var (next, lo) := (Increment(cfg, s, override, n, now).0, at - cfg.windowMs);
      hide Refill;
      if next.stamps[0] > lo {
        CutKeepsLater(next.stamps, lo);
      }
    }
  }

  /** Undoing with `removeNewest` at any later time leaves exactly the stamps that were live before. */
  lemma NewestUndoRestoresStamps(cfg: Strategy, s: Option<KeyState>, override: Option<int>, n: Cost, now: int,
      later: int)
    requires cfg.Valid() && cfg.SlidingWindow? && MatchesOption(cfg, s) && now <= later
    ensures var undone := DecrementOption(cfg, Some(Increment(cfg, s, override, n, now).0), n, true);
            LiveStamps(cfg, undone, later) == Cut(LiveStamps(cfg, s, now), later - cfg.windowMs)
  {
    SlidingIncrementShape(cfg, s, override, n, now);
    hide Refill, Increment, Cut;
    var live := LiveStamps(cfg, s, now);
    var next := Increment(cfg, s, override, n, now).0;
    assert next.stamps[..|next.stamps| - n] == live;
  }

  /**
   Taking `n` stamps off either end of `live` plus `n` fresh stamps leaves as many as `live` has, all of them late.
   */
  lemma UndoneStamps(cfg: Strategy, live: seq<int>, n: Cost, now: int, lo: int,
      removeNewest: bool) returns (rest: seq<int>)
    requires cfg.Valid() && cfg.SlidingWindow? && lo < now && forall i :: 0 <= i < |live| ==> live[i] > lo
    ensures |rest| == |live| && forall i :: 0 <= i < |rest| ==> rest[i] > lo
    ensures Decrement(cfg, Sliding(live + Repeat(now, n), None), n, removeNewest)
            == if rest == [] then None else Some(Sliding(rest, None))
  {
    var stamps := live + Repeat(now, n);
    rest := if removeNewest then stamps[..|live|] else stamps[n..];
  }

  lemma SlidingUndoRestoresCount(cfg: Strategy, s: Option<KeyState>, override: Option<int>, n: Cost, now: int,
      removeNewest: bool)
    requires cfg.Valid() && cfg.SlidingWindow? && MatchesOption(cfg, s)
    ensures var undone := DecrementOption(cfg, Some(Increment(cfg, s, override, n, now).0), n, removeNewest);
            LiveCount(cfg, undone, now) == LiveCount(cfg, s, now)
  {
    SlidingIncrementShape(cfg, s, override, n, now);
    hide Increment, Cut, Decrement;
    var lo := now - cfg.windowMs;
    var rest := UndoneStamps(cfg, LiveStamps(cfg, s, now), n, now, lo, removeNewest);
    CutKeepsLater(rest, lo);
  }

  /** Undoing a window increment at the instant it was made restores the live count, whichever end it drops from. */
  lemma ImmediateUndoRestoresCount(cfg: Strategy, s: Option<KeyState>, override: Option<int>, n: Cost, now: int,
      removeNewest: bool)
    requires cfg.Valid() && !cfg.TokenBucket? && MatchesOption(cfg, s) && NonNegative(s)
    ensures var undone := DecrementOption(cfg, Some(Increment(cfg, s, override, n, now).0), n, removeNewest);
            LiveCount(cfg, undone, now) == LiveCount(cfg, s, now) && NonNegative(undone)
  {
    if cfg.SlidingWindow? {
      SlidingUndoRestoresCount(cfg, s, override, n, now, removeNewest);
      hide Increment, LiveCount, Cut;
    } else {
      hide BucketIncrement, SlidingIncrement, Cut;
    }
  }

  lemma FixedUndoInvisible(cfg: Strategy, s: Option<KeyState>, cap: Option<int>, n: Cost, now: int, at: int,
      newest: bool)
    requires cfg.Valid() && cfg.FixedWindow? && MatchesOption(cfg, s) && NonNegative(s) && now <= at
    ensures var undone := DecrementOption(cfg, Some(Increment(cfg, s, cap, n, now).0), n, newest);
            LiveCount(cfg, undone, at) == LiveCount(cfg, s, at) && NonNegative(undone)
  {
    hide SlidingIncrement, BucketIncrement, Cut;
  }

  /** A wall expiry that has passed by `at` takes nothing that would still be live there. */
  ghost predicate WallHarmless(cfg: Strategy, s: Option<KeyState>, now: int, at: int)
    requires MatchesOption(cfg, s) && !cfg.TokenBucket?
  {
    cfg.SlidingWindow? && s.Some? && WallExpired(s.value, at) ==> Cut(LiveStamps(cfg, s, now), at - cfg.windowMs) == []
  }

  /**
   An increment taken back from the newest end was never there at a later time, unless the entry had a wall expiry:
   an increment clears it, so stamps that the wall would have dropped stay.
   */
  lemma NewestUndoInvisibleIff(cfg: Strategy, s: Option<KeyState>, cap: Option<int>, n: Cost, now: int, at: int)
    requires cfg.Valid() && !cfg.TokenBucket? && MatchesOption(cfg, s) && NonNegative(s) && now <= at
    ensures var undone := DecrementOption(cfg, Some(Increment(cfg, s, cap, n, now).0), n, true);
            && NonNegative(undone) && LiveCount(cfg, undone, at) >= LiveCount(cfg, s, at)
            && (LiveCount(cfg, undone, at) == LiveCount(cfg, s, at) <==> WallHarmless(cfg, s, now, at))
  {
    if cfg.FixedWindow? {
      FixedUndoInvisible(cfg, s, cap, n, now, at, true);
    } else {
      hide Increment, Cut, DecrementOption;
      NewestUndoRestoresStamps(cfg, s, cap, n, now, at);
      NewestUndoClearsWall(cfg, s, cap, n, now, at);
      CutCut(if s.Some? then s.value.stamps else [], now - cfg.windowMs, at - cfg.windowMs);
    }
  }

  /** After an increment and its undo no wall is left, so what counts are the live stamps. */
  lemma NewestUndoClearsWall(cfg: Strategy, s: Option<KeyState>, cap: Option<int>, n: Cost, now: int, at: int)
    requires cfg.Valid() && cfg.SlidingWindow? && MatchesOption(cfg, s)
    ensures var undone := DecrementOption(cfg, Some(Increment(cfg, s, cap, n, now).0), n, true);
            LiveCount(cfg, undone, at) == |LiveStamps(cfg, undone, at)| && NonNegative(undone)
  {
    SlidingIncrementShape(cfg, s, cap, n, now);
    assert Cut([], at - cfg.windowMs) == [];
    hide Increment, Cut;
  }

  /**
   A stamp from 0 with a wall at 100, an increment at 50 and its undo: at 200 the entry counts one, where it would
   count none.
   */
  lemma NewestUndoOutlivesWall(cap: Option<int>)
    ensures var (cfg, s) := (SlidingWindow(1000, 5), Some(Sliding([0], Some(100))));
            var undone := DecrementOption(cfg, Some(Increment(cfg, s, cap, 1, 50).0), 1, true);
            LiveCount(cfg, undone, 200) == 1 && LiveCount(cfg, s, 200) == 0
  {
    var (cfg, s) := (SlidingWindow(1000, 5), Some(Sliding([0], Some(100))));
    assert Cut([0], -950) == [0] && Cut([0], -800) == [0];
    SlidingIncrementShape(cfg, s, cap, 1, 50);
    hide Increment;
    assert ([0] + Repeat(50, 1))[..1] == [0];
  }

  /** Dropping the `n` oldest of `before` plus `n` stamps at `at`, read at cutoff `lo`. */
  lemma OldestDropped(before: seq<int>, n: nat, at: int, lo: int)
    requires Ascending(before) && lo < at && n >= 1
    ensures var still := |Cut(before, lo)|;
            |Cut((before + Repeat(at, n))[n..], lo)| == still + Min(n, |before| - still)
  {
    var rest := (before + Repeat(at, n))[n..];
    if n <= |before| {
      var aged, young := before[..n], before[n..];
      assert rest == young + Repeat(at, n);
      assert before == aged + young;
      CutConcat(young, Repeat(at, n), lo);
      CutConcat(aged, young, lo);
      CutKeepsLater(Repeat(at, n), lo);
      hide Cut;
      if before[n - 1] <= lo {
        CutDropsEarlier(aged, lo);
      } else {
        CutKeepsLater(young, lo);
      }
    } else {
      assert rest == Repeat(at, |before|);
      CutKeepsLater(rest, lo);
    }
  }

  /**
   The default undo drops the oldest stamps. Made later, while the probe is still live, it leaves
   `min(cost, expired)` units too many, where `expired` is how many of the earlier stamps left
   the window in between.
   */
  lemma OldestUndoDrift(cfg: Strategy, s: Option<KeyState>, override: Option<int>, n: Cost, now: int, later: int)
    requires cfg.Valid() && cfg.SlidingWindow? && MatchesOption(cfg, s)
    requires now <= later < now + cfg.windowMs && Ascending(LiveStamps(cfg, s, now))
    ensures var before := LiveStamps(cfg, s, now);
            var still := |Cut(before, later - cfg.windowMs)|;
            var undone := DecrementOption(cfg, Some(Increment(cfg, s, override, n, now).0), n, false);
            |LiveStamps(cfg, undone, later)| == still + Min(n, |before| - still)
  {
    SlidingIncrementShape(cfg, s, override, n, now);
    hide Refill, Increment, Cut;
    OldestDropped(LiveStamps(cfg, s, now), n, now, later - cfg.windowMs);
  }

  lemma FirstStaysOrGoes(s: seq<int>, lo: int)
    requires Ascending(s)
    ensures |Cut(s, lo)| == |s| <==> (s == [] || s[0] > lo)
  {
    if s == [] || s[0] > lo {
      CutKeepsLater(s, lo);
    }
  }

  /** So the default undo restores the live count exactly when nothing expired since the probe, by age or by a wall. */
  lemma OldestUndoExactIff(cfg: Strategy, s: Option<KeyState>, override: Option<int>, n: Cost, now: int, later: int)
    requires cfg.Valid() && cfg.SlidingWindow? && MatchesOption(cfg, s)
    requires now <= later < now + cfg.windowMs && Ascending(LiveStamps(cfg, s, now))
    ensures var before := LiveStamps(cfg, s, now);
            var undone := DecrementOption(cfg, Some(Increment(cfg, s, override, n, now).0), n, false);
            LiveCount(cfg, undone, later) == LiveCount(cfg, s, later)
            <==> before == [] || (before[0] > later - cfg.windowMs && !WallExpired(s.value, later))
  {
    hide Increment, DecrementOption, Cut, LiveCount;
    OldestUndoDrift(cfg, s, override, n, now, later);
    OldestUndoClearsWall(cfg, s, override, n, now, later);
    FirstStaysOrGoes(LiveStamps(cfg, s, now), later - cfg.windowMs);
    CountLater(cfg, s, now, later);
  }

  lemma OldestUndoClearsWall(cfg: Strategy, s: Option<KeyState>, cap: Option<int>, n: Cost, now: int, at: int)
    requires cfg.Valid() && cfg.SlidingWindow? && MatchesOption(cfg, s)
    ensures var undone := DecrementOption(cfg, Some(Increment(cfg, s, cap, n, now).0), n, false);
            LiveCount(cfg, undone, at) == |LiveStamps(cfg, undone, at)|
  {
    SlidingIncrementShape(cfg, s, cap, n, now);
    assert Cut([], at - cfg.windowMs) == [];
    hide Increment, Cut;
  }

  /** What an untouched entry counts later: what is left of its live stamps, until its wall. */
  lemma CountLater(cfg: Strategy, s: Option<KeyState>, now: int, later: int)
    requires cfg.SlidingWindow? && MatchesOption(cfg, s) && now <= later
    ensures LiveCount(cfg, s, later)
            == if s.Some? && WallExpired(s.value, later) then 0
              else |Cut(LiveStamps(cfg, s, now), later - cfg.windowMs)|
    ensures s.Some? && WallExpired(s.value, now) ==> LiveStamps(cfg, s, now) == []
  {
    CutCut(if s.Some? then s.value.stamps else [], now - cfg.windowMs, later - cfg.windowMs);
    assert Cut([], later - cfg.windowMs) == [] == Cut([], now - cfg.windowMs);
    hide Cut;
  }

  /**
   A probe at 900 of a window of 1000 that holds a stamp from 0, undone at 1500 from the oldest end: one unit is left
   where there should be none.
   */
  lemma OldestUndoDrifts(cap: Option<int>)
    ensures var (cfg, s) := (SlidingWindow(1000, 1), Some(Sliding([0], None)));
            var undone := DecrementOption(cfg, Some(Increment(cfg, s, cap, 1, 900).0), 1, false);
            LiveCount(cfg, undone, 1500) == 1 && LiveCount(cfg, s, 1500) == 0
  {
    var (cfg, s) := (SlidingWindow(1000, 1), Some(Sliding([0], None)));
    assert Cut([0], -100) == [0] && Cut([0], 500) == [];
    SlidingIncrementShape(cfg, s, cap, 1, 900);
    hide Increment;
    assert ([0] + Repeat(900, 1))[1..] == [900];
    assert Cut([900], 500) == [900];
  }

  // ----- token bucket -------------------------------------------------------

  lemma DivShift(x: int, k: int, d: int)
    requires d >= 1
    ensures (x - k * d) / d == x / d - k
  {
    var q := x / d;
    assert x - k * d == (q - k) * d + x % d;
    DivUnique(x - k * d, d, q - k, x % d);
  }

  lemma MultipleIsFar(k: int, d: int)
    requires d >= 1
    ensures k >= 1 ==> k * d >= d
    ensures k <= -1 ==> k * d <= -d
  {
  }

  lemma DivUnique(x: int, d: int, q: int, r: int)
    requires d >= 1 && x == q * d + r && 0 <= r < d
    ensures x / d == q
  {
    assert (q - x / d) * d == x % d - r;
    MultipleIsFar(q - x / d, d);
  }

  /** Refilling at two times equals refilling once at the later one. */
  lemma RefillTwice(cfg: Strategy, b: KeyState, first: int, second: int)
    requires cfg.Valid() && cfg.TokenBucket? && b.Bucket? && b.tokens <= cfg.bucketSize
    requires first <= second
    ensures Refill(cfg, Refill(cfg, b, first), second) == Refill(cfg, b, second)
  {
    var i := (first - b.lastRefill) / cfg.interval;
    var j := (second - b.lastRefill) / cfg.interval;
    if i > 0 {
      DivShift(second - b.lastRefill, i, cfg.interval);
      assert (second - Refill(cfg, b, first).lastRefill) / cfg.interval == j - i;
      DivMonotone(first - b.lastRefill, second - b.lastRefill, cfg.interval);
      assert i * cfg.tokensPerInterval + (j - i) * cfg.tokensPerInterval == j * cfg.tokensPerInterval;
      assert i * cfg.interval + (j - i) * cfg.interval == j * cfg.interval;
      assert (j - i) * cfg.tokensPerInterval >= 0;
    }
  }

  lemma DivMonotone(x: int, y: int, d: int)
    requires d >= 1 && x <= y
    ensures x / d <= y / d
  {
    assert (x / d - y / d) * d == x - y - x % d + y % d;
    MultipleIsFar(x / d - y / d, d);
  }

  /** A refill lands on the latest tick of the bucket's own lattice that is not after `now`. */
  lemma RefillLands(cfg: Strategy, b: KeyState, now: int)
    requires cfg.Valid() && cfg.TokenBucket? && b.Bucket? && b.lastRefill <= now
    ensures var r := Refill(cfg, b, now);
            r.lastRefill <= now < r.lastRefill + cfg.interval && b.lastRefill <= r.lastRefill
  {
    var x := now - b.lastRefill;
    assert x == x / cfg.interval * cfg.interval + x % cfg.interval;
  }
}
