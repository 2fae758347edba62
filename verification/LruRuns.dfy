/**
 Least-recently-used eviction over whole runs: the map's order is the order of
 last touch, so the victims are the least recently touched keys; and the key cap
 holds in every run that never resets an unseen key.
 */
module LruRuns {
  import opened Entries
  import opened MemoryTable

  /** The key an operation makes most recent: increments, sets, successful reads, and first sight by `reset`. */
  ghost function Touched(lim: Limits, m: Mem, op: StoreOp): (k: Option<Key>)
    requires Ok(lim, m)
  {
    match op
    case Inc(k, _, _, _) => Some(k)
    case SetHits(k, _, _, _) => Some(k)
    case Get(k, _) => if Apply(lim, m, op).1.Some? then Some(k) else None
    case Reset(k, _) => if ResetsUnseen(lim, m, op) then Some(k) else None
    case _ => None
  }

  ghost predicate ResetsUnseen(lim: Limits, m: Mem, op: StoreOp) {
    op.Reset? && !lim.strategy.SlidingWindow? && op.key !in m.entries
  }

  /** For each key ever touched, the position in the run of the last operation that did. */
  ghost function LastTouch(lim: Limits, ops: seq<StoreOp>): (rank: map<Key, int>)
    requires lim.strategy.Valid()
    ensures forall k :: k in rank ==> 0 < rank[k] <= |ops|
  {
    if ops == [] then map[]
    else Bump(LastTouch(lim, ops[..|ops| - 1]), Touched(lim, Exec(lim, ops[..|ops| - 1]), ops[|ops| - 1]), |ops|)
  }

  ghost function Bump(rank: map<Key, int>, touched: Option<Key>, at: int): (r: map<Key, int>) {
    if touched.Some? then rank[touched.value := at] else rank
  }

  /** Every key of `s` has a rank, and the ranks increase from above `lo`. */
  ghost predicate Ranked(rank: map<Key, int>, lo: int, s: seq<Key>)
    decreases |s|
  {
    s == [] || (s[0] in rank && lo < rank[s[0]] && Ranked(rank, rank[s[0]], s[1..]))
  }

  lemma RankedLower(rank: map<Key, int>, lo: int, lower: int, s: seq<Key>)
    requires Ranked(rank, lo, s) && lower <= lo
    ensures Ranked(rank, lower, s)
  {
  }

  lemma {:induction false} RankedAbove(rank: map<Key, int>, lo: int, s: seq<Key>, k: Key)
    requires Ranked(rank, lo, s) && k in s
    ensures k in rank && lo < rank[k]
    decreases |s|
  {
    if s[0] != k {
      assert s == [s[0]] + s[1..];
      RankedAbove(rank, rank[s[0]], s[1..], k);
    }
  }

  lemma {:induction false} RankedSuffix(rank: map<Key, int>, lo: int, s: seq<Key>, n: nat)
    requires Ranked(rank, lo, s) && n <= |s|
    ensures Ranked(rank, lo, s[n..])
    decreases |s|
  {
    if n > 0 {
      RankedSuffix(rank, rank[s[0]], s[1..], n - 1);
      assert s[n..] == s[1..][n - 1..];
      RankedLower(rank, rank[s[0]], lo, s[n..]);
    }
  }

  lemma {:induction false} RankedWithout(rank: map<Key, int>, lo: int, s: seq<Key>, k: Key)
    requires Ranked(rank, lo, s)
    ensures Ranked(rank, lo, Without(s, k))
    decreases |s|
  {
    if s != [] {
      RankedWithout(rank, rank[s[0]], s[1..], k);
      if s[0] != k {
        assert Without(s, k)[1..] == Without(s[1..], k);
      } else {
        assert Without(s, k) == Without(s[1..], k);
        RankedLower(rank, rank[s[0]], lo, Without(s, k));
      }
    }
  }

  /** A key that takes the highest rank goes last. */
  lemma {:induction false} RankedSnoc(rank: map<Key, int>, lo: int, s: seq<Key>, k: Key, top: int)
    requires Ranked(rank, lo, s) && k !in s && lo < top && forall x :: x in rank ==> rank[x] < top
    ensures Ranked(rank[k := top], lo, s + [k])
    decreases |s|
  {
    if s != [] {
      RankedSnoc(rank, rank[s[0]], s[1..], k, top);
      assert (s + [k])[1..] == s[1..] + [k];
    }
  }

  // ----- making room ----------------------------------------------------------------

  /** Making room removes a prefix of the order, just long enough. */
  lemma {:induction false} MakeRoomTakesOldest(lim: Limits, m: Mem, now: int)
    requires Ok(lim, m) && lim.maxKeys > 0
    ensures var n := Max(0, |m.order| + 1 - lim.maxKeys);
            var r := MakeRoom(lim, m, now);
            r.order == m.order[n..] && |r.evicted| == |m.evicted| + n && m.evicted <= r.evicted
    decreases |m.order|
  {
    hide Ok, Report;
    if |m.order| >= lim.maxKeys {
      MakeRoomTakesOldest(lim, DropHead(lim, m, now), now);
    }
  }

  /** The evicted key ranks below every key that stays, and is reported as expired exactly when it is. */
  ghost predicate Outranked(lim: Limits, m: Mem, r: Mem, e: Eviction, rank: map<Key, int>, now: int)
    requires Ok(lim, m)
  {
    && e.key in m.entries && e.key !in r.entries && e.key in rank
    && (e.reason.Expired? <==> EntryExpired(lim.strategy, m.entries[e.key], now))
    && forall x :: x in r.entries ==> x in rank && rank[e.key] < rank[x]
  }

  lemma {:induction false} MakeRoomReports(lim: Limits, m: Mem, now: int, rank: map<Key, int>, lo: int, i: nat)
    requires Ok(lim, m) && lim.maxKeys > 0 && Ranked(rank, lo, m.order)
    requires |m.evicted| <= i < |MakeRoom(lim, m, now).evicted|
    ensures Outranked(lim, m, MakeRoom(lim, m, now), MakeRoom(lim, m, now).evicted[i], rank, now)
    decreases |m.order|
  {
    if |m.order| >= lim.maxKeys {
      var next := DropHead(lim, m, now);
      hide Ok, Outranked, Report;
      MakeRoomTakesOldest(lim, next, now);
      if i == |m.evicted| {
        HeadOutranked(lim, m, rank, lo, now);
      } else {
        MakeRoomReports(lim, next, now, rank, rank[m.order[0]], i);
        OutrankedBefore(lim, m, MakeRoom(lim, m, now), MakeRoom(lim, m, now).evicted[i], rank, now);
      }
    }
  }

  lemma OutrankedBefore(lim: Limits, m: Mem, r: Mem, e: Eviction, rank: map<Key, int>, now: int)
    requires Ok(lim, m) && m.order != [] && Outranked(lim, DropHead(lim, m, now), r, e, rank, now)
    ensures Outranked(lim, m, r, e, rank, now)
  {
    hide Ok, EntryExpired;
  }

  lemma HeadOutranked(lim: Limits, m: Mem, rank: map<Key, int>, lo: int, now: int)
    requires Ok(lim, m) && lim.maxKeys > 0 && Ranked(rank, lo, m.order) && |m.order| >= lim.maxKeys
    ensures Outranked(lim, m, MakeRoom(lim, m, now), Report(lim, m, m.order[0], now), rank, now)
  {
    var next := DropHead(lim, m, now);
    MakeRoomKeeps(lim, next, now);
    assert MakeRoom(lim, m, now) == MakeRoom(lim, next, now);
    hide MakeRoom, EntryExpired;
    forall x | x in next.entries ensures x in rank && rank[m.order[0]] < rank[x] {
      RankedAbove(rank, rank[m.order[0]], next.order, x);
    }
    assert m.order[0] in m.order;
  }

  // ----- one step -----------------------------------------------------------------------

  lemma {:induction false} PurgeKeepsOrder(lim: Limits, m: Mem, keys: seq<Key>, pass: Pass, now: int,
      rank: map<Key, int>, lo: int)
    requires Ok(lim, m)
    ensures Ranked(rank, lo, m.order) ==> Ranked(rank, lo, PurgeAll(lim, m, keys, pass, now).order)
    ensures |PurgeAll(lim, m, keys, pass, now).order| <= |m.order|
  {
    if keys != [] {
      var k, prev := keys[|keys| - 1], PurgeAll(lim, m, keys[..|keys| - 1], pass, now);
      PurgeKeepsOrder(lim, m, keys[..|keys| - 1], pass, now, rank, lo);
      if Ranked(rank, lo, prev.order) {
        RankedWithout(rank, lo, prev.order, k);
      }
    }
  }

  lemma PurgeShrinks(lim: Limits, m: Mem, now: int, rank: map<Key, int>, lo: int)
    requires Ok(lim, m)
    ensures Ranked(rank, lo, m.order) ==> Ranked(rank, lo, Purge(lim, m, now).order)
    ensures |Purge(lim, m, now).order| <= |m.order|
  {
    hide Ok;
    PurgeKeepsOrder(lim, m, m.order, WallPass, now, rank, lo);
    var walls := if lim.strategy.SlidingWindow? then PurgeAll(lim, m, m.order, WallPass, now) else m;
    PurgeKeepsOrder(lim, walls, walls.order, TrimPass, now, rank, lo);
  }

  /** Where a write leaves the order: what stays, then the written key. */
  lemma PlacedLast(lim: Limits, m: Mem, k: Key, s: KeyState, now: int) returns (rest: seq<Key>)
    requires Ok(lim, m) && lim.maxKeys > 0
    ensures Place(lim, m, k, s, now).order == rest + [k] && k !in rest
    ensures k !in m.entries || |m.order| <= lim.maxKeys ==> |rest| < lim.maxKeys
    ensures exists n: nat :: n <= |m.order| && rest == Without(m.order[n..], k)
  {
    var room := EnsureRoom(lim, m, k, now);
    EraseOk(lim, room, k);
    rest := Erase(room, k).order;
    if k in m.entries {
      assert m.order[0..] == m.order;
    } else {
      RoomMade(lim, m, k, now);
    }
  }

  lemma RoomMade(lim: Limits, m: Mem, k: Key, now: int)
    requires Ok(lim, m) && lim.maxKeys > 0 && k !in m.entries
    ensures var n := Max(0, |m.order| + 1 - lim.maxKeys);
            var room := EnsureRoom(lim, m, k, now);
            && room.order == m.order[n..] && |room.order| < lim.maxKeys && k !in room.entries
            && Without(room.order, k) == room.order
  {
    MakeRoomTakesOldest(lim, m, now);
    MakeRoomKeeps(lim, m, now);
    WithoutMembers(EnsureRoom(lim, m, k, now).order, k);
  }

  lemma ClaimedLast(lim: Limits, m: Mem, k: Key, s: KeyState, now: int) returns (rest: seq<Key>)
    requires Ok(lim, m) && lim.maxKeys > 0
    ensures Put(Claim(lim, m, k, now), k, s).order == rest + [k] && k !in rest
    ensures k !in m.entries || |m.order| <= lim.maxKeys ==> |rest| < lim.maxKeys
    ensures exists n: nat :: n <= |Without(m.order, k)| && rest == Without(m.order, k)[n..]
  {
    hide MakeRoom;
    var cur := DropWallExpired(m, k, now);
    DropWallExpiredOk(lim, m, k, now);
    EraseOk(lim, m, k);
    EraseOk(lim, cur, k);
    ClaimOk(lim, m, k, now);
    WithoutMembers(m.order, k);
    rest := Claim(lim, m, k, now).order;
    if k in cur.entries {
      assert Without(m.order, k)[0..] == Without(m.order, k);
    } else {
      RoomMade(lim, cur, k, now);
    }
  }

  lemma WriteRanks(lim: Limits, m: Mem, k: Key, rest: seq<Key>, rank: map<Key, int>, lo: int, top: int)
    requires Ranked(rank, lo, m.order) && k !in rest && lo < top && forall x :: x in rank ==> rank[x] < top
    requires || (exists n: nat :: n <= |m.order| && rest == Without(m.order[n..], k))
             || (exists n: nat :: n <= |Without(m.order, k)| && rest == Without(m.order, k)[n..])
    ensures Ranked(rank[k := top], lo, rest + [k])
  {
    if n: nat :| n <= |m.order| && rest == Without(m.order[n..], k) {
      RankedSuffix(rank, lo, m.order, n);
      RankedWithout(rank, lo, m.order[n..], k);
    } else {
      var n: nat :| n <= |Without(m.order, k)| && rest == Without(m.order, k)[n..];
      RankedWithout(rank, lo, m.order, k);
      RankedSuffix(rank, lo, Without(m.order, k), n);
    }
    RankedSnoc(rank, lo, rest, k, top);
  }

  lemma ReadKeepsOrder(lim: Limits, m: Mem, k: Key, now: int, rank: map<Key, int>, lo: int, top: int)
    requires Ok(lim, m) && lim.maxKeys > 0 && Ranked(rank, lo, m.order)
    requires lo < top && forall x :: x in rank ==> rank[x] < top
    ensures Ranked(Bump(rank, Touched(lim, m, Get(k, now)), top), lo, GetKey(lim, m, k, now).0.order)
  {
    DropWallExpiredOk(lim, m, k, now);
    var cur := DropWallExpired(m, k, now);
    RankedWithout(rank, lo, m.order, k);
    WithoutMembers(m.order, k);
    if k in cur.entries {
      RankedSnoc(rank, lo, Without(m.order, k), k, top);
    }
  }

  /** One step: untouched keys keep their relative order, the touched key goes last. */
  lemma StepKeepsOrder(lim: Limits, m: Mem, op: StoreOp, rank: map<Key, int>, lo: int, top: int)
    requires Ok(lim, m) && lim.maxKeys > 0 && Ranked(rank, lo, m.order)
    requires lo < top && forall x :: x in rank ==> rank[x] < top
    ensures Ranked(Bump(rank, Touched(lim, m, op), top), lo, Apply(lim, m, op).0.order)
  {
    OkStrategy(lim, m);
    match op
    case Inc(k, override, cost, now) => IncrementKeepsOrder(lim, m, k, override, CostOf(cost), now, rank, lo, top);
    case SetHits(k, hits, expiresAt, now) =>
      hide Ok, Place;
      var rest := PlacedLast(lim, m, k, Assigned(lim, hits, expiresAt, now).0, now);
      WriteRanks(lim, m, k, rest, rank, lo, top);
    case Get(k, now) => hide Ok, GetKey; ReadKeepsOrder(lim, m, k, now, rank, lo, top);
    case Dec(k, _, _) => hide Ok, Decrement; RankedWithout(rank, lo, m.order, k);
    case Reset(k, now) =>
      RankedWithout(rank, lo, m.order, k);
      if k !in m.entries {
        RankedSnoc(rank, lo, m.order, k, top);
      }
    case Delete(k) => RankedWithout(rank, lo, m.order, k);
    case ResetAll =>
    case PurgeTick(now) => hide Ok, Purge; PurgeShrinks(lim, m, now, rank, lo);
  }

  lemma IncrementKeepsOrder(lim: Limits, m: Mem, k: Key, override: Option<int>, n: Cost, now: int,
      rank: map<Key, int>, lo: int, top: int)
    requires Ok(lim, m) && lim.maxKeys > 0 && Ranked(rank, lo, m.order)
    requires lo < top && forall x :: x in rank ==> rank[x] < top
    ensures Ranked(rank[k := top], lo, IncrementKey(lim, m, k, override, n, now).0.order)
  {
    OkEntry(lim, m, k);
    hide Ok, Place, Claim, Increment;
    var s := Increment(lim.strategy, Lookup(m, k), override, n, now).0;
    var rest;
    if lim.strategy.SlidingWindow? {
      rest := ClaimedLast(lim, m, k, s, now);
    } else {
      rest := PlacedLast(lim, m, k, s, now);
    }
    WriteRanks(lim, m, k, rest, rank, lo, top);
  }

  // ----- whole runs -----------------------------------------------------------------------

  /** In every run, the map's order is the order of last touch. */
  lemma {:induction false} OrderIsRecency(lim: Limits, ops: seq<StoreOp>)
    requires lim.strategy.Valid() && lim.maxKeys > 0
    ensures Ranked(LastTouch(lim, ops), 0, Exec(lim, ops).order)
  {
    if ops != [] {
      hide Ok, Apply, Touched, Bump;
      OrderIsRecency(lim, ops[..|ops| - 1]);
      StepKeepsOrder(lim, Exec(lim, ops[..|ops| - 1]), ops[|ops| - 1], LastTouch(lim, ops[..|ops| - 1]), 0, |ops|);
    }
  }

  /** The same, position by position. */
  lemma {:induction false} EarlierIsLessRecent(rank: map<Key, int>, lo: int, s: seq<Key>, i: nat, j: nat)
    requires Ranked(rank, lo, s) && i < j < |s|
    ensures s[i] in rank && s[j] in rank && rank[s[i]] < rank[s[j]]
    decreases |s|
  {
    if i == 0 {
      assert s[1..][j - 1] == s[j];
      RankedAbove(rank, rank[s[0]], s[1..], s[j]);
    } else {
      EarlierIsLessRecent(rank, rank[s[0]], s[1..], i - 1, j - 1);
    }
  }

  /** The victim was live, and every key that stays, but for the written one, was touched after it. */
  ghost predicate LeastRecent(lim: Limits, m: Mem, r: Mem, k: Key, written: Key, rank: map<Key, int>, now: int)
    requires Ok(lim, m)
  {
    && k != written && k in m.entries && k !in r.entries && k in rank && !EntryExpired(lim.strategy, m.entries[k], now)
    && forall x :: x in r.entries && x != written ==> x in rank && rank[k] < rank[x]
  }

  lemma RoomVictims(lim: Limits, m: Mem, k: Key, s: KeyState, rank: map<Key, int>, now: int, i: nat)
    requires Ok(lim, m) && lim.maxKeys > 0 && Ranked(rank, 0, m.order)
    requires |m.evicted| <= i < |EnsureRoom(lim, m, k, now).evicted|
    requires EnsureRoom(lim, m, k, now).evicted[i].reason.LruCap?
    ensures LeastRecent(lim, m, Put(EnsureRoom(lim, m, k, now), k, s), EnsureRoom(lim, m, k, now).evicted[i].key, k,
              rank, now)
  {
    hide Ok, MakeRoom, EntryExpired;
    MakeRoomReports(lim, m, now, rank, 0, i);
  }

  lemma PlaceVictims(lim: Limits, m: Mem, k: Key, s: KeyState, rank: map<Key, int>, now: int, i: nat)
    requires Ok(lim, m) && lim.maxKeys > 0 && Ranked(rank, 0, m.order)
    requires |m.evicted| <= i < |Place(lim, m, k, s, now).evicted|
    requires Place(lim, m, k, s, now).evicted[i].reason.LruCap?
    ensures LeastRecent(lim, m, Place(lim, m, k, s, now), Place(lim, m, k, s, now).evicted[i].key, k, rank, now)
  {
    hide Ok, EnsureRoom, EntryExpired;
    RoomVictims(lim, m, k, s, rank, now, i);
  }

  lemma ClaimVictims(lim: Limits, m: Mem, k: Key, s: KeyState, rank: map<Key, int>, now: int, i: nat)
    requires Ok(lim, m) && lim.maxKeys > 0 && Ranked(rank, 0, m.order)
    requires |m.evicted| <= i < |Claim(lim, m, k, now).evicted|
    requires Claim(lim, m, k, now).evicted[i].reason.LruCap?
    ensures LeastRecent(lim, m, Put(Claim(lim, m, k, now), k, s), Claim(lim, m, k, now).evicted[i].key, k, rank, now)
  {
    hide Ok, MakeRoom, EntryExpired;
    var cur := DropWallExpired(m, k, now);
    DropWallExpiredOk(lim, m, k, now);
    MakeRoomTakesOldest(lim, cur, now);
    RankedWithout(rank, 0, m.order, k);
    RoomVictims(lim, cur, k, s, rank, now, i);
  }

  lemma {:induction false} PurgeReportsExpired(lim: Limits, m: Mem, keys: seq<Key>, pass: Pass, now: int, i: nat)
    requires Ok(lim, m) && |m.evicted| <= i < |PurgeAll(lim, m, keys, pass, now).evicted|
    ensures PurgeAll(lim, m, keys, pass, now).evicted[i].reason.Expired?
  {
    hide Ok, EntryExpired;
    if keys != [] {
      var prev := PurgeAll(lim, m, keys[..|keys| - 1], pass, now);
      if i < |prev.evicted| {
        PurgeReportsExpired(lim, m, keys[..|keys| - 1], pass, now, i);
      }
    }
  }

  /** Only writes evict live keys, and then the least recent ones. */
  lemma StepVictims(lim: Limits, m: Mem, op: StoreOp, rank: map<Key, int>, i: nat)
    requires Ok(lim, m) && lim.maxKeys > 0 && Ranked(rank, 0, m.order)
    requires |m.evicted| <= i < |Apply(lim, m, op).0.evicted|
    requires Apply(lim, m, op).0.evicted[i].reason.LruCap?
    ensures op.Inc? || op.SetHits?
    ensures LeastRecent(lim, m, Apply(lim, m, op).0, Apply(lim, m, op).0.evicted[i].key, op.key, rank, op.now)
  {
    OkStrategy(lim, m);
    hide Ok, Claim, Place, PurgeAll, LeastRecent, Increment, Decrement, Peek, EntryExpired;
    match op
    case Inc(k, override, cost, now) =>
      var s := Increment(lim.strategy, Lookup(m, k), override, CostOf(cost), now).0;
      if lim.strategy.SlidingWindow? {
        ClaimVictims(lim, m, k, s, rank, now, i);
      } else {
        PlaceVictims(lim, m, k, s, rank, now, i);
      }
    case SetHits(k, hits, expiresAt, now) =>
      PlaceVictims(lim, m, k, Assigned(lim, hits, expiresAt, now).0, rank, now, i);
    case PurgeTick(now) =>
      var walls := if lim.strategy.SlidingWindow? then PurgeAll(lim, m, m.order, WallPass, now) else m;
      if i >= |walls.evicted| {
        PurgeReportsExpired(lim, walls, walls.order, TrimPass, now, i);
      } else {
        WallsFirst(lim, walls, now, i);
        PurgeReportsExpired(lim, m, m.order, WallPass, now, i);
      }
    case _ =>
  }

  lemma WallsFirst(lim: Limits, walls: Mem, now: int, i: nat)
    requires Ok(lim, walls) && i < |walls.evicted|
    ensures i < |PurgeAll(lim, walls, walls.order, TrimPass, now).evicted|
    ensures PurgeAll(lim, walls, walls.order, TrimPass, now).evicted[i] == walls.evicted[i]
  {
    hide Ok, PurgeAll;
    PurgeAllGrows(lim, walls, walls.order, TrimPass, now);
  }

  /**
   At every step of every run, each key the step reports as an LRU victim was live, and was touched before
   every key that stays, but for the one being written.
   */
  lemma VictimsAreLeastRecent(lim: Limits, ops: seq<StoreOp>, op: StoreOp, i: nat)
    requires lim.strategy.Valid() && lim.maxKeys > 0
    requires |Exec(lim, ops).evicted| <= i < |Apply(lim, Exec(lim, ops), op).0.evicted|
    requires Apply(lim, Exec(lim, ops), op).0.evicted[i].reason.LruCap?
    ensures op.Inc? || op.SetHits?
    ensures var (m, r) := (Exec(lim, ops), Apply(lim, Exec(lim, ops), op).0);
            LeastRecent(lim, m, r, r.evicted[i].key, op.key, LastTouch(lim, ops), op.now)
  {
    hide Ok, Exec, LastTouch, LeastRecent, Apply;
    OrderIsRecency(lim, ops);
    StepVictims(lim, Exec(lim, ops), op, LastTouch(lim, ops), i);
  }

  /**
   Writing a key that is new, or any key within the cap, leaves at most `maxKeys` keys, however many `reset` had
   added.
   */
  lemma InsertRestoresCap(lim: Limits, m: Mem, op: StoreOp)
    requires Ok(lim, m) && lim.maxKeys > 0 && (op.Inc? || op.SetHits?)
    requires op.key !in m.entries || |m.order| <= lim.maxKeys
    ensures |Apply(lim, m, op).0.order| <= lim.maxKeys && op.key in Apply(lim, m, op).0.entries
  {
    OkEntry(lim, m, op.key);
    hide Ok, MakeRoom, Claim, Increment;
    if op.SetHits? {
      var _ := PlacedLast(lim, m, op.key, Assigned(lim, op.totalHits, op.expiresAt, op.now).0, op.now);
    } else {
      var s := Increment(lim.strategy, Lookup(m, op.key), op.override, CostOf(op.cost), op.now).0;
      if lim.strategy.SlidingWindow? {
        var _ := ClaimedLast(lim, m, op.key, s, op.now);
      } else {
        var _ := PlacedLast(lim, m, op.key, s, op.now);
      }
    }
  }

  lemma ReadKeepsCap(lim: Limits, m: Mem, k: Key, now: int)
    requires Ok(lim, m)
    ensures |GetKey(lim, m, k, now).0.order| <= |m.order|
  {
    hide Ok, Peek;
    WithoutMembers(m.order, k);
    DropWallExpiredOk(lim, m, k, now);
    EraseOk(lim, DropWallExpired(m, k, now), k);
  }

  /** One step keeps the key cap, except exactly when it resets an unseen key into a full table. */
  lemma StepKeepsCap(lim: Limits, m: Mem, op: StoreOp)
    requires Ok(lim, m) && lim.maxKeys > 0 && |m.order| <= lim.maxKeys
    ensures |Apply(lim, m, op).0.order| <= lim.maxKeys <==> !(ResetsUnseen(lim, m, op) && |m.order| == lim.maxKeys)
  {
    OkStrategy(lim, m);
    hide Ok, IncrementKey, GetKey, SetKey, Purge, Decrement;
    match op
    case Inc(k, override, cost, now) => InsertRestoresCap(lim, m, op);
    case SetHits(k, hits, expiresAt, now) => InsertRestoresCap(lim, m, op);
    case Get(k, now) => ReadKeepsCap(lim, m, k, now);
    case Dec(k, _, _) =>
    case Reset(k, now) =>
    case Delete(k) =>
    case ResetAll =>
    case PurgeTick(now) => PurgeShrinks(lim, m, now, map[], 0);
  }

  /** A full store of one key that is asked to reset another one holds two. */
  lemma ResetPassesCap(a: Key, b: Key)
    requires a != b
    ensures var (lim, m) := (Limits(FixedWindow(1000, 1), 1), Mem([a], map[a := Fixed(1, 1000)], []));
            && Ok(lim, m) && ResetsUnseen(lim, m, Reset(b, 0)) && |m.order| == lim.maxKeys
            && Apply(lim, m, Reset(b, 0)).0.order == [a, b] && Exec(lim, [Inc(a, None, 1, 0)]) == m
  {
    var (lim, m) := (Limits(FixedWindow(1000, 1), 1), Mem([a], map[a := Fixed(1, 1000)], []));
    assert m.order[1..] == [] && Distinct([]);
    assert Ok(lim, m);
    hide Ok;
    assert [a] + [b] == [a, b];
    assert Exec(lim, [Inc(a, None, 1, 0)][..0]) == EMPTY;
    assert MakeRoom(lim, EMPTY, 0) == EMPTY;
    assert Increment(lim.strategy, None, None, 1, 0).0 == Fixed(1, 1000);
    assert [] + [a] == [a];
  }

  ghost predicate NeverResetsUnseen(lim: Limits, ops: seq<StoreOp>)
    requires lim.strategy.Valid()
  {
    ops == [] || (NeverResetsUnseen(lim, ops[..|ops| - 1])
                  && !ResetsUnseen(lim, Exec(lim, ops[..|ops| - 1]), ops[|ops| - 1]))
  }

  lemma {:induction false} SizeWithinCap(lim: Limits, ops: seq<StoreOp>)
    requires lim.strategy.Valid() && lim.maxKeys > 0 && NeverResetsUnseen(lim, ops)
    ensures |Exec(lim, ops).order| <= lim.maxKeys
  {
    if ops != [] {
      hide Ok, Apply, ResetsUnseen;
      SizeWithinCap(lim, ops[..|ops| - 1]);
      StepKeepsCap(lim, Exec(lim, ops[..|ops| - 1]), ops[|ops| - 1]);
    }
  }
}
