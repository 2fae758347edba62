/**
 A fixed-window store as one key sees it: what every operation does to the key's own window, and
 that operations on other keys leave it alone.
 */
module FixedTable {
  import opened Entries
  import opened MemoryTable

  ghost predicate LiveEntry(e: Option<KeyState>, now: int) {
    e.Some? && e.value.Fixed? && now < e.value.resetTime
  }

  // ----- what an operation does to another key -------------------------------------------------

  /** The key keeps its entry, or loses it with its window over; or it was evicted live. */
  ghost predicate Quiet(m: Mem, r: Mem, k: Key, now: int) {
    Spared(r, k) ==> Lookup(r, k) == Lookup(m, k) || (Lookup(r, k) == None && !LiveEntry(Lookup(m, k), now))
  }

  lemma RoomQuiet(lim: Limits, m: Mem, k: Key, now: int, x: Key)
    requires Ok(lim, m) && lim.strategy.FixedWindow? && x != k
    ensures m.evicted <= EnsureRoom(lim, m, k, now).evicted && Quiet(m, EnsureRoom(lim, m, k, now), x, now)
  {
    MakeRoomGrows(lim, m, now);
    MakeRoomKeeps(lim, m, now);
    OkEntry(lim, m, x);
    if x in m.entries {
      MakeRoomLoses(lim, m, now, x);
    }
    hide Ok, MakeRoom;
  }

  lemma PlaceQuiet(lim: Limits, m: Mem, k: Key, s: KeyState, now: int, x: Key)
    requires Ok(lim, m) && lim.strategy.FixedWindow?
    ensures var r := Place(lim, m, k, s, now);
            m.evicted <= r.evicted && (if x == k then Lookup(r, x) == Some(s) else Quiet(m, r, x, now))
  {
    MakeRoomGrows(lim, m, now);
    hide Ok, MakeRoom;
    if x != k {
      RoomQuiet(lim, m, k, now, x);
    }
  }

  lemma FixedIncrementKey(lim: Limits, m: Mem, k: Key, override: Option<int>, n: Cost, now: int, x: Key)
    requires Ok(lim, m) && lim.strategy.FixedWindow?
    ensures lim.strategy.Valid() && MatchesOption(lim.strategy, Lookup(m, k))
    ensures var (r, res) := IncrementKey(lim, m, k, override, n, now);
            var (s, own) := Increment(lim.strategy, Lookup(m, k), override, n, now);
            res == own && m.evicted <= r.evicted && (if x == k then Lookup(r, x) == Some(s) else Quiet(m, r, x, now))
  {
    OkEntry(lim, m, k);
    PlaceQuiet(lim, m, k, Increment(lim.strategy, Lookup(m, k), override, n, now).0, now, x);
    hide Ok, Increment, Place;
  }

  lemma PurgeOneQuiet(lim: Limits, m: Mem, x: Key, now: int, k: Key)
    requires Ok(lim, m) && lim.strategy.FixedWindow?
    ensures var r := PurgeOne(lim, m, x, TrimPass, now);
            Lookup(r, k) == Lookup(m, k) || (Lookup(r, k) == None && !LiveEntry(Lookup(m, k), now))
  {
    OkEntry(lim, m, x);
    OkEntry(lim, m, k);
    hide Ok;
  }

  lemma {:induction false} PurgeAllQuiet(lim: Limits, m: Mem, keys: seq<Key>, now: int, k: Key)
    requires Ok(lim, m) && lim.strategy.FixedWindow?
    ensures var r := PurgeAll(lim, m, keys, TrimPass, now);
            Lookup(r, k) == Lookup(m, k) || (Lookup(r, k) == None && !LiveEntry(Lookup(m, k), now))
  {
    if keys != [] {
      hide Ok, PurgeOne;
      PurgeAllQuiet(lim, m, keys[..|keys| - 1], now, k);
      PurgeOneQuiet(lim, PurgeAll(lim, m, keys[..|keys| - 1], TrimPass, now), keys[|keys| - 1], now, k);
    }
  }

  lemma PurgeIsQuiet(lim: Limits, m: Mem, now: int, k: Key)
    requires Ok(lim, m) && lim.strategy.FixedWindow?
    ensures m.evicted <= Purge(lim, m, now).evicted && Quiet(m, Purge(lim, m, now), k, now)
  {
    hide Ok, PurgeAll;
    PurgeGrows(lim, m, now);
    PurgeAllQuiet(lim, m, m.order, now, k);
  }

  /** `reset`, `delete`, `set` and `resetAll` on one store: the key gets a definite entry, others stay as they are. */
  lemma ApplyQuiet(lim: Limits, m: Mem, op: StoreOp, k: Key, now: int)
    requires Ok(lim, m) && lim.strategy.FixedWindow?
    requires op.Reset? || op.Delete? || op.ResetAll? || (op.SetHits? && op.now == now)
    ensures var r := Apply(lim, m, op).0;
            && m.evicted <= r.evicted
            && (if op.ResetAll? || (op.Delete? && op.key == k) then Lookup(r, k) == None
                else if op.Reset? && op.key == k then Lookup(r, k) == Some(Fixed(0, op.now + lim.strategy.windowMs))
                else if op.SetHits? && op.key == k then
                  Lookup(r, k) == Some(Assigned(lim, op.totalHits, op.expiresAt, op.now).0)
                else Quiet(m, r, k, now))
  {
    hide Ok, Place;
    if op.SetHits? {
      PlaceQuiet(lim, m, op.key, Assigned(lim, op.totalHits, op.expiresAt, op.now).0, op.now, k);
    }
  }

  /** A read moves a key, and changes nothing else. */
  lemma ReadQuiet(lim: Limits, m: Mem, x: Key, now: int, k: Key)
    requires Ok(lim, m) && lim.strategy.FixedWindow?
    ensures lim.strategy.Valid() && (x in m.entries ==> Matches(lim.strategy, m.entries[x]))
    ensures var r := GetKey(lim, m, x, now).0; r.evicted == m.evicted && Quiet(m, r, k, now)
  {
    OkEntry(lim, m, x);
    hide Ok, Peek;
  }
}
