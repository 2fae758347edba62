/**
 What reads, assignments, resets, decrements and the background purge mean for the requests
 around them.
 */
module ReadLaws {
  import opened Entries
  import opened EntryLaws
  import opened MemoryTable
  import opened Composition

  // ----- a read foretells the next increment ----------------------------------------------------

  /** `r` is what an increment of `n` answers where a read reports `seen`: nothing, or these figures. */
  ghost predicate Foretold(cfg: Strategy, seen: Option<Result>, n: Cost, now: int, r: Result)
    requires cfg.Valid()
  {
    match cfg
    case TokenBucket(_, ms, size) =>
      var tokens := if seen.Some? then seen.value.remaining else size;
      && (r.isBlocked <==> tokens < n)
      && (!r.isBlocked ==> r.remaining == tokens - n)
      && (seen.Some? ==> r.resetTime == seen.value.resetTime && seen.value.totalHits == size - tokens)
      && (seen.Some? && size > 0 ==> (seen.value.isBlocked <==> tokens == 0))
    case _ =>
      && r.totalHits == (if seen.Some? then seen.value.totalHits else 0) + n
      && r.resetTime == (if seen.Some? then seen.value.resetTime else now + cfg.windowMs)
      && (seen.Some? ==>
            && seen.value.remaining == Max(0, cfg.maxRequests - seen.value.totalHits)
            && (seen.value.isBlocked <==> seen.value.totalHits > cfg.maxRequests))
  }

  /** An entry that is read as absent counts as absent. */
  lemma ReadForetells(lim: Limits, s: KeyState, override: Option<int>, n: Cost, now: int)
    requires lim.strategy.Valid() && Matches(lim.strategy, s)
    requires s.Bucket? ==> s.tokens <= lim.strategy.bucketSize
    ensures Foretold(lim.strategy, Peek(lim, s, now), n, now, Increment(lim.strategy, Some(s), override, n, now).1)
  {
    if lim.strategy.TokenBucket? {
      IdleFullStays(lim.strategy, s, now);
      hide Refill;
    } else {
      hide Cut, Refill;
    }
  }

  lemma IdleFullStays(cfg: Strategy, b: KeyState, now: int)
    requires cfg.Valid() && cfg.TokenBucket? && b.Bucket? && b.tokens <= cfg.bucketSize
    ensures IdleFull(cfg, b, now) ==> Refill(cfg, b, now).tokens == cfg.bucketSize
  {
    var k := (now - b.lastRefill) / cfg.interval;
    if k > 0 {
      assert k * cfg.tokensPerInterval >= 0;
    }
  }

  /** A read of the whole store: what it reports, and that no key's answers change. */
  lemma GetForetells(lim: Limits, m: Mem, k: Key, override: Option<int>, n: Cost, now: int)
    requires Ok(lim, m) && (k in m.entries && m.entries[k].Bucket? ==> m.entries[k].tokens <= lim.strategy.bucketSize)
    ensures lim.strategy.Valid() && (k in m.entries ==> Matches(lim.strategy, m.entries[k]))
    ensures Foretold(lim.strategy, GetKey(lim, m, k, now).1, n, now, IncrementKey(lim, m, k, override, n, now).1)
    ensures var after := GetKey(lim, m, k, now).0;
            && Ok(lim, after)
            && IncrementKey(lim, after, k, override, n, now).1 == IncrementKey(lim, m, k, override, n, now).1
  {
    GetKeyOk(lim, m, k, now);
    OkEntry(lim, m, k);
    if k in m.entries {
      ReadForetells(lim, m.entries[k], override, n, now);
      if WallExpired(m.entries[k], now) {
        WallIsAbsent(lim.strategy, m.entries[k], override, n, now);
      }
    } else {
      hide Cut;
    }
    hide Ok, Increment, Claim, Place, Peek, Foretold;
  }

  lemma WallIsAbsent(cfg: Strategy, s: KeyState, override: Option<int>, n: Cost, now: int)
    requires cfg.Valid() && Matches(cfg, s) && WallExpired(s, now)
    ensures Increment(cfg, Some(s), override, n, now) == Increment(cfg, None, override, n, now)
  {
    hide Cut;
  }

  // ----- an assignment is read back ----------------------------------------------------------------

  /** The assigned quota is already over, or there is none. */
  predicate Vacuous(cfg: Strategy, hits: int, expiresAt: Option<int>, now: int) {
    match cfg
    case SlidingWindow(_, _) => hits <= 0 || (expiresAt.Some? && expiresAt.value <= now)
    case FixedWindow(_, _) => expiresAt.Some? && expiresAt.value <= now
    case TokenBucket(_, _, _) => false
  }

  /** At the same instant a read reports what `set` returned, unless that quota is over already. */
  lemma SetReadsBack(lim: Limits, m: Mem, k: Key, hits: int, expiresAt: Option<int>, now: int)
    requires Ok(lim, m)
    ensures var (after, r) := SetKey(lim, m, k, hits, expiresAt, now);
            && Ok(lim, after) && (k in after.entries ==> Matches(lim.strategy, after.entries[k]))
            && GetKey(lim, after, k, now).1 == if Vacuous(lim.strategy, hits, expiresAt, now) then None else Some(r)
  {
    var s := Assigned(lim, hits, expiresAt, now).0;
    PlaceOk(lim, m, k, s, now);
    AssignedReads(lim, hits, expiresAt, now);
    var after := SetKey(lim, m, k, hits, expiresAt, now).0;
    OkEntry(lim, after, k);
    assert after.entries[k] == s by { hide MakeRoom; }
    hide Ok, Place, Peek, Assigned;
  }

  lemma AssignedReads(lim: Limits, hits: int, expiresAt: Option<int>, now: int)
    requires lim.strategy.Valid()
    ensures var (s, r) := Assigned(lim, hits, expiresAt, now);
            if Vacuous(lim.strategy, hits, expiresAt, now) then WallExpired(s, now) || Peek(lim, s, now) == None
            else !WallExpired(s, now) && Peek(lim, s, now) == Some(r)
  {
    match lim.strategy
    case SlidingWindow(w, _) =>
      CutKeepsLater(Repeat(now, Max(0, hits)), now - w);
      hide Cut;
    case FixedWindow(_, _) =>
    case TokenBucket(_, ms, _) => assert (now - now) / ms == 0;
  }

  // ----- a reset forgets ---------------------------------------------------------------------------

  /** What a reset leaves of a key. */
  function AfterReset(cfg: Strategy, now: int): (s: Option<KeyState>) {
    match cfg
    case SlidingWindow(_, _) => None
    case FixedWindow(w, _) => Some(Fixed(0, now + w))
    case TokenBucket(_, _, size) => Some(Bucket(size, now))
  }

  lemma ResetEntryForgets(cfg: Strategy, now: int, override: Option<int>, n: Cost, at: int)
    requires cfg.Valid()
    ensures MatchesOption(cfg, AfterReset(cfg, now))
    ensures Increment(cfg, AfterReset(cfg, now), override, n, now).1 == Increment(cfg, None, override, n, now).1
    ensures !cfg.TokenBucket? ==> LiveCount(cfg, AfterReset(cfg, now), at) == 0
  {
    if cfg.TokenBucket? {
      assert (now - now) / cfg.interval == 0;
    }
    hide Cut;
  }

  /** After a reset the key is answered as one that was never seen, and a window store counts nothing for it. */
  lemma ResetForgets(lim: Limits, m: Mem, k: Key, now: int, override: Option<int>, n: Cost, at: int)
    requires Ok(lim, m)
    ensures var after := ResetKey(lim, m, k, now);
            && Ok(lim, after)
            && IncrementKey(lim, after, k, override, n, now).1 == IncrementKey(lim, EMPTY, k, override, n, now).1
            && (!lim.strategy.TokenBucket? ==>
                  MatchesOption(lim.strategy, Lookup(after, k)) && LiveCount(lim.strategy, Lookup(after, k), at) == 0)
  {
    var after := ResetKey(lim, m, k, now);
    ApplyOk(lim, m, Reset(k, now));
    EmptyOk(lim, []);
    assert Lookup(after, k) == AfterReset(lim.strategy, now);
    hide Ok, IncrementKey, Increment, LiveCount, ResetKey;
    ResetEntryForgets(lim.strategy, now, override, n, at);
    IncrementedEntry(lim, after, k, override, n, now);
    IncrementedEntry(lim, EMPTY, k, override, n, now);
  }

  // ----- what a decrement takes off the count ---------------------------------------------------------

  /** In order, the live stamps are the last ones. */
  lemma {:induction false} CutIsSuffix(s: seq<int>, lo: int) returns (i: nat)
    requires Ascending(s)
    ensures i <= |s| && Cut(s, lo) == s[i..]
    ensures (forall j :: 0 <= j < i ==> s[j] <= lo) && forall j :: i <= j < |s| ==> s[j] > lo
  {
    if s == [] || s[0] > lo {
      i := 0;
      CutKeepsLater(s, lo);
    } else {
      i := CutIsSuffix(s[1..], lo);
      i := i + 1;
    }
  }

  lemma DeadSlice(s: seq<int>, lo: int, a: nat, b: nat)
    requires a <= b <= |s| && forall j :: a <= j < b ==> s[j] <= lo
    ensures Cut(s[a..b], lo) == []
  {
    CutDropsEarlier(s[a..b], lo);
  }

  lemma LiveSlice(s: seq<int>, lo: int, a: nat, b: nat)
    requires a <= b <= |s| && forall j :: a <= j < b ==> s[j] > lo
    ensures |Cut(s[a..b], lo)| == b - a
  {
    CutKeepsLater(s[a..b], lo);
  }

  lemma CutOfSlice(s: seq<int>, lo: int, a: nat, b: nat)
    requires Ascending(s) && a <= b <= |s|
    ensures var (dead, live) := (|s| - |Cut(s, lo)|, |Cut(s, lo)|);
            |Cut(s[a..b], lo)| == Max(0, b - Max(a, dead))
  {
    var i := CutIsSuffix(s, lo);
    hide Cut, Ascending;
    if b <= i {
      DeadSlice(s, lo, a, b);
    } else if i <= a {
      LiveSlice(s, lo, a, b);
    } else {
      assert s[a..b] == s[a..i] + s[i..b];
      CutConcat(s[a..i], s[i..b], lo);
      DeadSlice(s, lo, a, i);
      LiveSlice(s, lo, i, b);
    }
  }

  /** A sliding decrement keeps a slice of the stamps, and their wall. */
  lemma DecrementSlices(cfg: Strategy, s: KeyState, n: Cost, newest: bool, now: int)
    requires cfg.Valid() && cfg.SlidingWindow? && Matches(cfg, s)
    ensures var (size, k) := (|s.stamps|, Min(n, |s.stamps|));
            var rest := if newest then s.stamps[0..size - k] else s.stamps[k..size];
            LiveCount(cfg, Decrement(cfg, s, n, newest), now)
            == if WallExpired(s, now) then 0 else |Cut(rest, now - cfg.windowMs)|
  {
    var (size, k) := (|s.stamps|, Min(n, |s.stamps|));
    assert s.stamps[0..size - k] == s.stamps[..size - k] && s.stamps[k..size] == s.stamps[k..];
    assert Cut([], now - cfg.windowMs) == [];
    hide Cut;
  }

  /**
   A decrement takes its cost off the count of a window key, down to zero. From the oldest end it first takes stamps
   that have left the window but are still stored.
   */
  lemma DecrementCounts(cfg: Strategy, s: KeyState, n: Cost, newest: bool, now: int)
    requires cfg.Valid() && !cfg.TokenBucket? && Matches(cfg, s) && (s.Fixed? ==> s.count >= 0)
    requires s.Sliding? ==> Ascending(s.stamps)
    ensures var count := LiveCount(cfg, Some(s), now);
            var stored := if s.Sliding? && !newest then |s.stamps| else count;
            LiveCount(cfg, Decrement(cfg, s, n, newest), now) == Min(count, Max(0, stored - n))
  {
    if cfg.SlidingWindow? {
      var (lo, size) := (now - cfg.windowMs, |s.stamps|);
      var k := Min(n, size);
      CutOfSlice(s.stamps, lo, 0, size - k);
      CutOfSlice(s.stamps, lo, k, size);
      DecrementSlices(cfg, s, n, newest, now);
      hide Cut, Decrement;
    }
  }

  // ----- tokens that are given back ------------------------------------------------------------------

  /** An allowed bucket increment that is given back leaves the bucket as it was refilled, up to a full one. */
  lemma BucketUndoRestores(cfg: Strategy, s: Option<KeyState>, override: Option<int>, n: Cost, now: int, newest: bool)
    requires cfg.Valid() && cfg.TokenBucket? && MatchesOption(cfg, s)
    requires s.Some? ==> s.value.tokens <= cfg.bucketSize
    requires !Increment(cfg, s, override, n, now).1.isBlocked
    ensures DecrementOption(cfg, Some(Increment(cfg, s, override, n, now).0), n, newest)
            == Some(Refill(cfg, if s.Some? then s.value else Bucket(cfg.bucketSize, now), now))
  {
    var b := if s.Some? then s.value else Bucket(cfg.bucketSize, now);
    assert Refill(cfg, b, now).tokens <= cfg.bucketSize;
    hide Refill;
  }

  /** Any decrement makes room for as much, as far as the bucket is large enough. */
  lemma GivenBackCanBeTaken(cfg: Strategy, b: KeyState, override: Option<int>, n: Cost, now: int, newest: bool)
    requires cfg.Valid() && cfg.TokenBucket? && b.Bucket? && 0 <= b.tokens && n <= cfg.bucketSize
    ensures !Increment(cfg, Decrement(cfg, b, n, newest), override, n, now).1.isBlocked
  {
    var k := (now - b.lastRefill) / cfg.interval;
    assert k > 0 ==> k * cfg.tokensPerInterval >= 0;
  }

  // ----- the background purge -------------------------------------------------------------------------

  /** Key `k` before and after some of a pass: dropped if it was due, and then only; trimmed at most. */
  ghost predicate PurgedTo(lim: Limits, m: Mem, r: Mem, k: Key, pass: Pass, now: int, visited: bool) {
    && (k in m.entries ==> Matches(lim.strategy, m.entries[k]))
    && (k in r.entries ==> k in m.entries && Trimmed(lim, m.entries[k], r.entries[k], now))
    && (k in m.entries ==> (k !in r.entries <==> visited && DueIn(lim, m.entries[k], pass, now)))
  }

  lemma PurgeOneDrops(lim: Limits, m: Mem, x: Key, pass: Pass, now: int, k: Key)
    requires Ok(lim, m)
    ensures x in m.entries ==> Matches(lim.strategy, m.entries[x])
    ensures var r := PurgeOne(lim, m, x, pass, now);
            PurgedTo(lim, m, r, k, pass, now, x == k)
  {
    OkEntry(lim, m, x);
    OkEntry(lim, m, k);
    if k in m.entries && m.entries[k].Sliding? && lim.strategy.SlidingWindow? {
      CutCut(m.entries[k].stamps, now - lim.strategy.windowMs, now - lim.strategy.windowMs);
    }
    hide Ok, Cut;
  }

  /** What a pass drops. */
  ghost predicate DueIn(lim: Limits, s: KeyState, pass: Pass, now: int)
    requires Matches(lim.strategy, s)
  {
    if pass.WallPass? then WallExpired(s, now)
    else if lim.strategy.SlidingWindow? then Cut(s.stamps, now - lim.strategy.windowMs) == []
    else EntryExpired(lim.strategy, s, now)
  }

  /** At most the stamps that are out of the window are gone. */
  ghost predicate Trimmed(lim: Limits, a: KeyState, b: KeyState, now: int) {
    a == b ||
    (lim.strategy.SlidingWindow? && a.Sliding? && b.Sliding? && b.wall == a.wall
      && b.stamps == Cut(a.stamps, now - lim.strategy.windowMs))
  }

  lemma DueStays(lim: Limits, a: KeyState, b: KeyState, pass: Pass, now: int)
    requires Matches(lim.strategy, a) && Trimmed(lim, a, b, now)
    ensures Matches(lim.strategy, b) && DueIn(lim, a, pass, now) == DueIn(lim, b, pass, now)
    ensures forall c :: Trimmed(lim, b, c, now) ==> Trimmed(lim, a, c, now)
  {
    if a.Sliding? && lim.strategy.SlidingWindow? {
      CutCut(a.stamps, now - lim.strategy.windowMs, now - lim.strategy.windowMs);
    }
    hide Cut;
  }

  lemma PurgedOn(lim: Limits, m: Mem, mid: Mem, r: Mem, k: Key, pass: Pass, now: int, first: bool, second: bool)
    requires PurgedTo(lim, m, mid, k, pass, now, first) && PurgedTo(lim, mid, r, k, pass, now, second)
    ensures PurgedTo(lim, m, r, k, pass, now, first || second)
  {
    if k in mid.entries {
      DueStays(lim, m.entries[k], mid.entries[k], pass, now);
    }
    hide DueIn, Trimmed;
  }

  lemma {:induction false} PurgeAllDrops(lim: Limits, m: Mem, keys: seq<Key>, pass: Pass, now: int, k: Key)
    requires Ok(lim, m)
    ensures PurgedTo(lim, m, PurgeAll(lim, m, keys, pass, now), k, pass, now, k in keys)
  {
    if keys == [] {
      NothingPurged(lim, m, k, pass, now);
    } else {
      hide Ok, PurgeOne, PurgedTo;
      var init := keys[..|keys| - 1];
      var mid := PurgeAll(lim, m, init, pass, now);
      PurgeAllDrops(lim, m, init, pass, now, k);
      PurgeOneDrops(lim, mid, keys[|keys| - 1], pass, now, k);
      PurgedOn(lim, m, mid, PurgeAll(lim, m, keys, pass, now), k, pass, now, k in init, keys[|keys| - 1] == k);
      assert keys == init + [keys[|keys| - 1]];
    }
  }

  lemma NothingPurged(lim: Limits, m: Mem, k: Key, pass: Pass, now: int)
    requires Ok(lim, m)
    ensures PurgedTo(lim, m, m, k, pass, now, false)
  {
    OkEntry(lim, m, k);
    hide Ok;
  }

  lemma Ordered(lim: Limits, m: Mem, k: Key)
    requires Ok(lim, m)
    ensures k in m.order <==> k in m.entries
  {
  }

  /** The purge drops exactly the expired entries; of the others it takes at most stamps that no longer count. */
  lemma PurgeDropsExactlyExpired(lim: Limits, m: Mem, now: int, k: Key)
    requires Ok(lim, m)
    ensures MatchesOption(lim.strategy, Lookup(m, k))
    ensures var r := Purge(lim, m, now);
            && (k in r.entries <==> k in m.entries && !EntryExpired(lim.strategy, m.entries[k], now))
            && (k in r.entries ==> Trimmed(lim, m.entries[k], r.entries[k], now))
  {
    OkEntry(lim, m, k);
    Ordered(lim, m, k);
    var walls := if lim.strategy.SlidingWindow? then PurgeAll(lim, m, m.order, WallPass, now) else m;
    PurgeAllDrops(lim, m, m.order, WallPass, now, k);
    Ordered(lim, walls, k);
    PurgeAllDrops(lim, walls, walls.order, TrimPass, now, k);
    hide Ok, PurgeAll, Cut, IdleFull;
    if k in walls.entries {
      DueStays(lim, m.entries[k], walls.entries[k], TrimPass, now);
    }
  }
}
