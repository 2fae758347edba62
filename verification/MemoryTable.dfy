/**
 The in-process store as a value: one insertion-ordered map from keys to quota
 state, bounded by `maxKeys`, and the effect of every public operation on it.
 */
module MemoryTable {
  import opened Entries

  datatype Reason = LruCap | Expired

  /** One call of the eviction callback. */
  datatype Eviction = Eviction(key: Key, reason: Reason)

  /** `order` is the map's iteration order, oldest first. */
  datatype Mem = Mem(order: seq<Key>, entries: map<Key, KeyState>, evicted: seq<Eviction>)

  datatype Limits = Limits(strategy: Strategy, maxKeys: nat)

  const EMPTY := Mem([], map[], [])

  ghost predicate Distinct(s: seq<Key>) {
    s == [] || (s[0] !in s[1..] && Distinct(s[1..]))
  }

  lemma {:induction false} DistinctSnoc(s: seq<Key>, k: Key)
    requires Distinct(s) && k !in s
    ensures Distinct(s + [k])
  {
    if s != [] {
      DistinctSnoc(s[1..], k);
      assert (s + [k])[1..] == s[1..] + [k];
    }
  }

  ghost predicate Ok(lim: Limits, m: Mem) {
    && lim.strategy.Valid()
    && Distinct(m.order)
    && (forall k :: k in m.order ==> k in m.entries)
    && (forall k :: k in m.entries ==> k in m.order)
    && (forall k :: k in m.entries ==> Matches(lim.strategy, m.entries[k]))
  }

  lemma OkEntry(lim: Limits, m: Mem, k: Key)
    requires Ok(lim, m)
    ensures lim.strategy.Valid() && MatchesOption(lim.strategy, Lookup(m, k))
  {
  }

  lemma OkStrategy(lim: Limits, m: Mem)
    requires Ok(lim, m)
    ensures lim.strategy.Valid() && forall k :: k in m.entries ==> Matches(lim.strategy, m.entries[k])
  {
  }

  lemma EmptyOk(lim: Limits, evicted: seq<Eviction>)
    requires lim.strategy.Valid()
    ensures Ok(lim, Mem([], map[], evicted))
  {
  }

  function Lookup(m: Mem, k: Key): (s: Option<KeyState>) {
    if k in m.entries then Some(m.entries[k]) else None
  }

  /** The key was never dropped while it still limited something. */
  ghost predicate Spared(m: Mem, k: Key) {
    Eviction(k, LruCap) !in m.evicted
  }

  // ----- the ordered map ------------------------------------------------------

  function Without(s: seq<Key>, k: Key): (r: seq<Key>)
    ensures |r| <= |s|
  {
    if s == [] then [] else (if s[0] == k then [] else [s[0]]) + Without(s[1..], k)
  }

  lemma {:induction false} WithoutMembers(s: seq<Key>, k: Key)
    ensures forall x :: x in Without(s, k) <==> x in s && x != k
    ensures k in s ==> |Without(s, k)| < |s|
    ensures k !in s ==> Without(s, k) == s
  {
    if s != [] {
      WithoutMembers(s[1..], k);
      assert s == [s[0]] + s[1..];
    }
  }

  lemma {:induction false} WithoutDistinct(s: seq<Key>, k: Key)
    requires Distinct(s)
    ensures Distinct(Without(s, k))
  {
    if s != [] {
      WithoutDistinct(s[1..], k);
      WithoutMembers(s[1..], k);
      if s[0] != k {
        assert Without(s, k)[1..] == Without(s[1..], k);
      } else {
        assert Without(s, k) == Without(s[1..], k);
      }
    }
  }

  /** Deleting a key. */
  function Erase(m: Mem, k: Key): (r: Mem)
    ensures r.evicted == m.evicted && r.entries == m.entries - {k}
  {
    if k in m.entries then m.(order := Without(m.order, k), entries := m.entries - {k}) else m
  }

  /** Setting a key: a present key keeps its place, a new one goes last. */
  function Put(m: Mem, k: Key, s: KeyState): (r: Mem)
    ensures r.evicted == m.evicted && r.entries == m.entries[k := s]
  {
    m.(order := if k in m.entries then m.order else m.order + [k], entries := m.entries[k := s])
  }

  lemma EraseOk(lim: Limits, m: Mem, k: Key)
    requires Ok(lim, m)
    ensures Ok(lim, Erase(m, k)) && k !in Erase(m, k).order
    ensures k in m.entries ==> |Erase(m, k).order| < |m.order|
  {
    WithoutMembers(m.order, k);
    WithoutDistinct(m.order, k);
  }

  lemma PutOk(lim: Limits, m: Mem, k: Key, s: KeyState)
    requires Ok(lim, m) && Matches(lim.strategy, s)
    ensures Ok(lim, Put(m, k, s))
  {
    if k !in m.entries {
      DistinctSnoc(m.order, k);
    }
  }

  // ----- eviction -------------------------------------------------------------

  /** Delete and report, as the callback sees it. */
  function Drop(m: Mem, k: Key, reason: Reason): (r: Mem)
    ensures r.entries == m.entries - {k}
  {
    if k in m.entries then Erase(m, k).(evicted := m.evicted + [Eviction(k, reason)]) else m
  }

  /** The oldest key leaves: as expired when it is, otherwise as the LRU victim. */
  ghost function DropHead(lim: Limits, m: Mem, now: int): (r: Mem)
    requires Ok(lim, m) && m.order != []
    ensures Ok(lim, r)
  {
    assert m.order == [m.order[0]] + m.order[1..];
    Mem(m.order[1..], m.entries - {m.order[0]}, m.evicted + [Report(lim, m, m.order[0], now)])
  }

  ghost function Report(lim: Limits, m: Mem, k: Key, now: int): (e: Eviction)
    requires Ok(lim, m) && k in m.entries
  {
    Eviction(k, if EntryExpired(lim.strategy, m.entries[k], now) then Expired else LruCap)
  }

  lemma DropHeadIsDrop(lim: Limits, m: Mem, now: int)
    requires Ok(lim, m) && m.order != []
    ensures DropHead(lim, m, now) == Drop(m, m.order[0], Report(lim, m, m.order[0], now).reason)
  {
    WithoutMembers(m.order[1..], m.order[0]);
  }

  /** Drop heads until one more key fits. */
  ghost function MakeRoom(lim: Limits, m: Mem, now: int): (r: Mem)
    requires Ok(lim, m)
    ensures Ok(lim, r)
    decreases |m.order|
  {
    if |m.order| < lim.maxKeys || m.order == [] then m else MakeRoom(lim, DropHead(lim, m, now), now)
  }

  /** Making room only removes keys. */
  lemma {:induction false} MakeRoomKeeps(lim: Limits, m: Mem, now: int)
    requires Ok(lim, m)
    ensures forall k :: k in MakeRoom(lim, m, now).entries ==>
            k in m.entries && MakeRoom(lim, m, now).entries[k] == m.entries[k]
    decreases |m.order|
  {
    if |m.order| >= lim.maxKeys && m.order != [] {
      MakeRoomKeeps(lim, DropHead(lim, m, now), now);
    }
  }

  ghost function EnsureRoom(lim: Limits, m: Mem, k: Key, now: int): (r: Mem)
    requires Ok(lim, m)
    ensures Ok(lim, r)
  {
    if lim.maxKeys == 0 || k in m.entries then m else MakeRoom(lim, m, now)
  }

  function Touch(lim: Limits, m: Mem, k: Key): (r: Mem) {
    if lim.maxKeys > 0 && k in m.entries then Put(Erase(m, k), k, m.entries[k]) else m
  }

  /** Write a key that `set` or an increment owns: most recent place, unless unbounded and already present. */
  ghost function Place(lim: Limits, m: Mem, k: Key, s: KeyState, now: int): (r: Mem)
    requires Ok(lim, m)
  {
    var room := EnsureRoom(lim, m, k, now);
    Put(if lim.maxKeys > 0 then Erase(room, k) else room, k, s)
  }

  // ----- operations -----------------------------------------------------------

  function DropWallExpired(m: Mem, k: Key, now: int): (r: Mem) {
    if k in m.entries && WallExpired(m.entries[k], now) then Drop(m, k, Expired) else m
  }

  lemma DropWallExpiredOk(lim: Limits, m: Mem, k: Key, now: int)
    requires Ok(lim, m)
    ensures Ok(lim, DropWallExpired(m, k, now))
  {
    EraseOk(lim, m, k);
  }

  /** A sliding increment takes its key out of the map, or makes room for it. */
  ghost function Claim(lim: Limits, m: Mem, k: Key, now: int): (r: Mem)
    requires Ok(lim, m)
  {
    DropWallExpiredOk(lim, m, k, now);
    var cur := DropWallExpired(m, k, now);
    if k in cur.entries then Erase(cur, k) else EnsureRoom(lim, cur, k, now)
  }

  lemma ClaimOk(lim: Limits, m: Mem, k: Key, now: int)
    requires Ok(lim, m)
    ensures Ok(lim, Claim(lim, m, k, now)) && k !in Claim(lim, m, k, now).entries
  {
    hide MakeRoom, Ok;
    DropWallExpiredOk(lim, m, k, now);
    var cur := DropWallExpired(m, k, now);
    EraseOk(lim, cur, k);
    MakeRoomKeeps(lim, cur, now);
  }

  ghost function IncrementKey(lim: Limits, m: Mem, k: Key, override: Option<int>, n: Cost, now: int): (r: (Mem, Result))
    requires Ok(lim, m)
  {
    var (s, res) := Increment(lim.strategy, Lookup(m, k), override, n, now);
    (if lim.strategy.SlidingWindow? then Put(Claim(lim, m, k, now), k, s) else Place(lim, m, k, s, now), res)
  }

  function DecrementKey(lim: Limits, m: Mem, k: Key, n: Cost, removeNewest: bool): (r: Mem)
    requires lim.strategy.Valid() && (k in m.entries ==> Matches(lim.strategy, m.entries[k]))
  {
    if k !in m.entries then m
    else
      var s := Decrement(lim.strategy, m.entries[k], n, removeNewest);
      if s.None? then Erase(m, k) else Put(m, k, s.value)
  }

  /** A sliding key is forgotten; other strategies write a fresh entry, without making room for it. */
  function ResetKey(lim: Limits, m: Mem, k: Key, now: int): (r: Mem) {
    match lim.strategy
    case SlidingWindow(_, _) => Erase(m, k)
    case FixedWindow(w, _) => Put(m, k, Fixed(0, now + w))
    case TokenBucket(_, _, size) => Put(m, k, Bucket(size, now))
  }

  /** What a read reports, if the key holds live quota state. */
  function Peek(lim: Limits, s: KeyState, now: int): (r: Option<Result>)
    requires lim.strategy.Valid() && Matches(lim.strategy, s)
  {
    if EntryExpired(lim.strategy, s, now) then None
    else
      match lim.strategy
      case SlidingWindow(w, cap) =>
        var live := Cut(s.stamps, now - w);
        Some(WindowResult(|live|, cap, live[0] + w))
      case FixedWindow(_, cap) => Some(WindowResult(s.count, cap, s.resetTime))
      case TokenBucket(_, ms, size) =>
        var b := Refill(lim.strategy, s, now);
        Some(Result(size - b.tokens, b.tokens, b.lastRefill + ms, b.tokens == 0 && size - b.tokens >= size))
  }

  function GetKey(lim: Limits, m: Mem, k: Key, now: int): (r: (Mem, Option<Result>))
    requires lim.strategy.Valid() && (k in m.entries ==> Matches(lim.strategy, m.entries[k]))
  {
    var cur := DropWallExpired(m, k, now);
    if k !in cur.entries then (cur, None)
    else
      var seen := Peek(lim, cur.entries[k], now);
      (if seen.Some? then Touch(lim, cur, k) else cur, seen)
  }

  function Assigned(lim: Limits, totalHits: int, expiresAt: Option<int>, now: int): (r: (KeyState, Result)) {
    var n := Max(0, totalHits);
    match lim.strategy
    case SlidingWindow(w, cap) => (Sliding(Repeat(now, n), expiresAt), WindowResult(n, cap, now + w))
    case FixedWindow(w, cap) =>
      var end := if expiresAt.Some? then expiresAt.value else now + w;
      (Fixed(n, end), WindowResult(n, cap, end))
    case TokenBucket(_, ms, size) =>
      var tokens := if n >= size then 0 else size - n;
      (Bucket(tokens, now), Result(if n >= size then size else n, tokens, now + ms, n >= size))
  }

  ghost function SetKey(lim: Limits, m: Mem, k: Key, totalHits: int, expiresAt: Option<int>,
      now: int): (r: (Mem, Result))
    requires Ok(lim, m)
  {
    var (s, res) := Assigned(lim, totalHits, expiresAt, now);
    (Place(lim, m, k, s, now), res)
  }

  // ----- background purge -------------------------------------------------------

  datatype Pass = WallPass | TrimPass

  function PurgeOne(lim: Limits, m: Mem, k: Key, pass: Pass, now: int): (r: Mem)
    requires k in m.entries ==> Matches(lim.strategy, m.entries[k])
  {
    if k !in m.entries then m
    else
      var s := m.entries[k];
      if pass.WallPass? then DropWallExpired(m, k, now)
      else if lim.strategy.SlidingWindow? then
        var live := Cut(s.stamps, now - lim.strategy.windowMs);
        if live == [] then Drop(m, k, Expired)
        else if |live| != |s.stamps| then Put(m, k, s.(stamps := live)) else m
      else if EntryExpired(lim.strategy, s, now) then Drop(m, k, Expired) else m
  }

  lemma PurgeOneOk(lim: Limits, m: Mem, k: Key, pass: Pass, now: int)
    requires Ok(lim, m)
    ensures Ok(lim, PurgeOne(lim, m, k, pass, now))
  {
    OkEntry(lim, m, k);
    EraseOk(lim, m, k);
    DropOk(lim, m, k, Expired);
    DropWallExpiredOk(lim, m, k, now);
    hide Ok, Cut;
    if k in m.entries && lim.strategy.SlidingWindow? {
      PutOk(lim, m, k, m.entries[k].(stamps := Cut(m.entries[k].stamps, now - lim.strategy.windowMs)));
    }
  }

  lemma DropOk(lim: Limits, m: Mem, k: Key, reason: Reason)
    requires Ok(lim, m)
    ensures Ok(lim, Drop(m, k, reason))
  {
    EraseOk(lim, m, k);
  }

  ghost function PurgeAll(lim: Limits, m: Mem, keys: seq<Key>, pass: Pass, now: int): (r: Mem)
    requires Ok(lim, m)
    ensures Ok(lim, r)
  {
    if keys == [] then m
    else
      var prev := PurgeAll(lim, m, keys[..|keys| - 1], pass, now);
      PurgeOneOk(lim, prev, keys[|keys| - 1], pass, now);
      PurgeOne(lim, prev, keys[|keys| - 1], pass, now)
  }

  ghost function Purge(lim: Limits, m: Mem, now: int): (r: Mem)
    requires Ok(lim, m)
    ensures Ok(lim, r)
  {
    var walls := if lim.strategy.SlidingWindow? then PurgeAll(lim, m, m.order, WallPass, now) else m;
    PurgeAll(lim, walls, walls.order, TrimPass, now)
  }

  lemma {:induction false} PurgeAllGrows(lim: Limits, m: Mem, keys: seq<Key>, pass: Pass, now: int)
    requires Ok(lim, m)
    ensures m.evicted <= PurgeAll(lim, m, keys, pass, now).evicted
  {
    if keys != [] {
      PurgeAllGrows(lim, m, keys[..|keys| - 1], pass, now);
    }
  }

  lemma SparedBefore(m: Mem, r: Mem, k: Key)
    requires m.evicted <= r.evicted
    ensures Spared(r, k) ==> Spared(m, k)
  {
    assert forall e :: e in m.evicted ==> e in r.evicted;
  }

  // ----- what evictions report ---------------------------------------------------

  lemma {:induction false} MakeRoomLoses(lim: Limits, m: Mem, now: int, k: Key)
    requires Ok(lim, m) && k in m.entries
    ensures m.evicted <= MakeRoom(lim, m, now).evicted
    ensures k !in MakeRoom(lim, m, now).entries && !EntryExpired(lim.strategy, m.entries[k], now)
            ==> Eviction(k, LruCap) in MakeRoom(lim, m, now).evicted
    decreases |m.order|
  {
    if |m.order| >= lim.maxKeys && m.order != [] {
      var next := DropHead(lim, m, now);
      if m.order[0] == k {
        MakeRoomGrows(lim, next, now);
        var e := Report(lim, m, k, now);
        assert e == next.evicted[|m.evicted|] == MakeRoom(lim, m, now).evicted[|m.evicted|];
      } else {
        MakeRoomLoses(lim, next, now, k);
      }
    }
  }

  lemma {:induction false} MakeRoomGrows(lim: Limits, m: Mem, now: int)
    requires Ok(lim, m)
    ensures m.evicted <= MakeRoom(lim, m, now).evicted
    decreases |m.order|
  {
    if |m.order| >= lim.maxKeys && m.order != [] {
      MakeRoomGrows(lim, DropHead(lim, m, now), now);
    }
  }

  lemma PurgeGrows(lim: Limits, m: Mem, now: int)
    requires Ok(lim, m)
    ensures m.evicted <= Purge(lim, m, now).evicted
  {
    PurgeAllGrows(lim, m, m.order, WallPass, now);
    var walls := if lim.strategy.SlidingWindow? then PurgeAll(lim, m, m.order, WallPass, now) else m;
    PurgeAllGrows(lim, walls, walls.order, TrimPass, now);
  }

  // ----- one step of a run ------------------------------------------------------

  datatype StoreOp =
    | Inc(key: Key, override: Option<int>, cost: int, now: int)
    | Dec(key: Key, n: Cost, removeNewest: bool)
    | Reset(key: Key, now: int)
    | Get(key: Key, now: int)
    | SetHits(key: Key, totalHits: int, expiresAt: Option<int>, now: int)
    | Delete(key: Key)
    | ResetAll
    | PurgeTick(now: int)

  /** The clock of an operation, if it reads one. */
  function TimeOf(op: StoreOp): (t: Option<int>) {
    match op
    case Inc(_, _, _, now) => Some(now)
    case Reset(_, now) => Some(now)
    case Get(_, now) => Some(now)
    case SetHits(_, _, _, now) => Some(now)
    case PurgeTick(now) => Some(now)
    case _ => None
  }

  ghost function Apply(lim: Limits, m: Mem, op: StoreOp): (r: (Mem, Option<Result>))
    requires Ok(lim, m)
  {
    match op
    case Inc(k, override, cost, now) =>
      var (next, res) := IncrementKey(lim, m, k, override, CostOf(cost), now); (next, Some(res))
    case Dec(k, cost, removeNewest) => (DecrementKey(lim, m, k, CostOf(cost), removeNewest), None)
    case Reset(k, now) => (ResetKey(lim, m, k, now), None)
    case Get(k, now) => GetKey(lim, m, k, now)
    case SetHits(k, hits, expiresAt, now) =>
      var (next, res) := SetKey(lim, m, k, hits, expiresAt, now); (next, Some(res))
    case Delete(k) => (Erase(m, k), None)
    case ResetAll => (Mem([], map[], m.evicted), None)
    case PurgeTick(now) => (Purge(lim, m, now), None)
  }

  lemma PlaceOk(lim: Limits, m: Mem, k: Key, s: KeyState, now: int)
    requires Ok(lim, m) && Matches(lim.strategy, s)
    ensures Ok(lim, Place(lim, m, k, s, now))
  {
    hide Ok, MakeRoom;
    var room := EnsureRoom(lim, m, k, now);
    EraseOk(lim, room, k);
    PutOk(lim, if lim.maxKeys > 0 then Erase(room, k) else room, k, s);
  }

  lemma DecrementKeyOk(lim: Limits, m: Mem, k: Key, n: Cost, removeNewest: bool)
    requires Ok(lim, m)
    ensures Ok(lim, DecrementKey(lim, m, k, n, removeNewest))
  {
    OkEntry(lim, m, k);
    hide Ok, Decrement;
    if k in m.entries {
      EraseOk(lim, m, k);
      var s := Decrement(lim.strategy, m.entries[k], n, removeNewest);
      if s.Some? {
        PutOk(lim, m, k, s.value);
      }
    }
  }

  lemma GetKeyOk(lim: Limits, m: Mem, k: Key, now: int)
    requires Ok(lim, m)
    ensures Ok(lim, GetKey(lim, m, k, now).0)
  {
    DropWallExpiredOk(lim, m, k, now);
    var cur := DropWallExpired(m, k, now);
    EraseOk(lim, cur, k);
    OkEntry(lim, cur, k);
    OkEntry(lim, m, k);
    hide Ok, Peek;
    if k in cur.entries {
      PutOk(lim, Erase(cur, k), k, cur.entries[k]);
    }
  }

  lemma IncrementKeyOk(lim: Limits, m: Mem, k: Key, override: Option<int>, n: Cost, now: int)
    requires Ok(lim, m)
    ensures Ok(lim, IncrementKey(lim, m, k, override, n, now).0)
  {
    OkEntry(lim, m, k);
    hide Ok, MakeRoom, Increment;
    var s := Increment(lim.strategy, Lookup(m, k), override, n, now).0;
    if lim.strategy.SlidingWindow? {
      ClaimOk(lim, m, k, now);
      PutOk(lim, Claim(lim, m, k, now), k, s);
    } else {
      PlaceOk(lim, m, k, s, now);
    }
  }

  /** Every operation keeps the table a well-formed ordered map of this strategy's entries. */
  lemma ApplyOk(lim: Limits, m: Mem, op: StoreOp)
    requires Ok(lim, m)
    ensures Ok(lim, Apply(lim, m, op).0)
  {
    OkStrategy(lim, m);
    hide Ok, IncrementKey, GetKey, Purge, Place, DecrementKey, Increment, Decrement, Peek, Erase, Put;
    match op
    case Inc(k, override, cost, now) => IncrementKeyOk(lim, m, k, override, CostOf(cost), now);
    case SetHits(k, hits, expiresAt, now) => PlaceOk(lim, m, k, Assigned(lim, hits, expiresAt, now).0, now);
    case Dec(k, cost, removeNewest) => DecrementKeyOk(lim, m, k, CostOf(cost), removeNewest);
    case Reset(k, now) =>
      EraseOk(lim, m, k);
      if lim.strategy.FixedWindow? {
        PutOk(lim, m, k, Fixed(0, now + lim.strategy.windowMs));
      } else if lim.strategy.TokenBucket? {
        PutOk(lim, m, k, Bucket(lim.strategy.bucketSize, now));
      }
    case Delete(k) => EraseOk(lim, m, k);
    case Get(k, now) => GetKeyOk(lim, m, k, now);
    case ResetAll => EmptyOk(lim, m.evicted);
    case PurgeTick(_) =>
  }

  /** The table after a whole run from empty. */
  ghost function Exec(lim: Limits, ops: seq<StoreOp>): (m: Mem)
    requires lim.strategy.Valid()
    ensures Ok(lim, m)
  {
    if ops == [] then EMPTY
    else
      var prev := Exec(lim, ops[..|ops| - 1]);
      ApplyOk(lim, prev, ops[|ops| - 1]);
      Apply(lim, prev, ops[|ops| - 1]).0
  }

  /** The clock does not run backwards, and has not passed `now`. */
  ghost predicate Forward(ops: seq<StoreOp>, now: int) {
    ops == [] ||
    (var t := TimeOf(ops[|ops| - 1]);
     if t.Some? then t.value <= now && Forward(ops[..|ops| - 1], t.value) else Forward(ops[..|ops| - 1], now))
  }

  lemma PlaceGrows(lim: Limits, m: Mem, k: Key, s: KeyState, now: int)
    requires Ok(lim, m)
    ensures m.evicted <= Place(lim, m, k, s, now).evicted
  {
    hide Ok, MakeRoom;
    MakeRoomGrows(lim, m, now);
  }

  lemma ClaimGrows(lim: Limits, m: Mem, k: Key, now: int)
    requires Ok(lim, m)
    ensures m.evicted <= Claim(lim, m, k, now).evicted
  {
    hide Ok, MakeRoom;
    DropWallExpiredOk(lim, m, k, now);
    MakeRoomGrows(lim, DropWallExpired(m, k, now), now);
  }

  lemma IncrementGrows(lim: Limits, m: Mem, k: Key, override: Option<int>, n: Cost, now: int)
    requires Ok(lim, m)
    ensures m.evicted <= IncrementKey(lim, m, k, override, n, now).0.evicted
  {
    OkEntry(lim, m, k);
    hide Ok, Claim, Place, Increment;
    ClaimGrows(lim, m, k, now);
    PlaceGrows(lim, m, k, Increment(lim.strategy, Lookup(m, k), override, n, now).0, now);
  }

  /** What was evicted stays on record. */
  lemma ApplyGrows(lim: Limits, m: Mem, op: StoreOp)
    requires Ok(lim, m)
    ensures m.evicted <= Apply(lim, m, op).0.evicted
  {
    OkStrategy(lim, m);
    hide Ok, IncrementKey, Place, Purge, Decrement, Peek;
    match op
    case Inc(k, override, cost, now) => IncrementGrows(lim, m, k, override, CostOf(cost), now);
    case SetHits(k, hits, expiresAt, now) => PlaceGrows(lim, m, k, Assigned(lim, hits, expiresAt, now).0, now);
    case PurgeTick(now) => PurgeGrows(lim, m, now);
    case _ =>
  }

  /** A key that was never evicted live had not been at any earlier step either. */
  lemma SparedEarlier(lim: Limits, m: Mem, op: StoreOp, k: Key)
    requires Ok(lim, m)
    ensures Spared(Apply(lim, m, op).0, k) ==> Spared(m, k)
  {
    hide Ok, Apply;
    ApplyGrows(lim, m, op);
    SparedBefore(m, Apply(lim, m, op).0, k);
  }

  /** What a write of another key does to `k`: nothing, or it drops it as expired or evicts it live. */
  lemma OtherKeyAfterPlace(lim: Limits, m: Mem, x: Key, s: KeyState, now: int, k: Key)
    requires Ok(lim, m) && x != k
    ensures var r := Place(lim, m, x, s, now);
            || Lookup(r, k) == Lookup(m, k)
            || (k in m.entries && k !in r.entries && (EntryExpired(lim.strategy, m.entries[k], now) || !Spared(r, k)))
  {
    hide MakeRoom;
    MakeRoomKeeps(lim, m, now);
    if k in m.entries {
      MakeRoomLoses(lim, m, now, k);
    }
  }
}
