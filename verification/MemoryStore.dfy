/**
 The in-process store as the object it is: fields updated in place. Every public
 operation is proved to act on its ordered map as `MemoryTable` says.
 */
module MemoryStore {
  import opened Entries
  import opened MemoryTable

  function LruCount(evicted: seq<Eviction>): (n: nat) {
    if evicted == [] then 0
    else LruCount(evicted[..|evicted| - 1]) + if evicted[|evicted| - 1].reason.LruCap? then 1 else 0
  }

  lemma LruCountSnoc(evicted: seq<Eviction>, e: Eviction)
    ensures LruCount(evicted + [e]) == LruCount(evicted) + if e.reason.LruCap? then 1 else 0
  {
    assert (evicted + [e])[..|evicted|] == evicted;
  }

  method PushStamps(trimmed: seq<int>, now: int, cost: nat) returns (r: seq<int>)
    ensures r == trimmed + Repeat(now, cost)
  {
    r := trimmed;
    for i := 0 to cost
      invariant r == trimmed + Repeat(now, i)
    {
      r := r + [now];
    }
  }

  method ShiftStamps(stamps: seq<int>, cost: nat) returns (r: seq<int>)
    ensures r == stamps[Min(cost, |stamps|)..]
  {
    r := stamps;
    for i := 0 to Min(cost, |stamps|)
      invariant r == stamps[i..]
    {
      r := r[1..];
    }
  }

  method PopStamps(stamps: seq<int>, cost: nat) returns (r: seq<int>)
    ensures r == stamps[..|stamps| - Min(cost, |stamps|)]
  {
    r := stamps;
    for i := 0 to Min(cost, |stamps|)
      invariant r == stamps[..|stamps| - i]
    {
      r := r[..|r| - 1];
    }
  }

  class MemoryStore {
    const lim: Limits
    var order: seq<Key>
    var entries: map<Key, KeyState>
    var evicted: seq<Eviction>
    var totalEvictions: nat

    ghost function View(): (m: Mem)
      reads this
    {
      Mem(order, entries, evicted)
    }

    ghost predicate Valid()
      reads this
    {
      Ok(lim, View()) && totalEvictions == LruCount(evicted)
    }

    constructor (strategy: Strategy, maxKeys: nat)
      requires strategy.Valid()
      ensures Valid() && View() == EMPTY && lim == Limits(strategy, maxKeys)
    {
      lim := Limits(strategy, maxKeys);
      order, entries, evicted, totalEvictions := [], map[], [], 0;
    }

    // ----- the ordered map -----------------------------------------------------

    method MapDelete(k: Key)
      requires Valid()
      modifies this`order, this`entries
      ensures Valid() && View() == Erase(old(View()), k)
    {
      EraseOk(lim, View(), k);
      if k in entries {
        order, entries := Without(order, k), entries - {k};
      }
    }

    method MapSet(k: Key, s: KeyState)
      requires Valid() && Matches(lim.strategy, s)
      modifies this`order, this`entries
      ensures Valid() && View() == Put(old(View()), k, s)
    {
      PutOk(lim, View(), k, s);
      if k !in entries {
        order := order + [k];
      }
      entries := entries[k := s];
    }

    method DeleteKeyData(k: Key)
      requires Valid()
      modifies this
      ensures Valid() && View() == Drop(old(View()), k, Expired)
    {
      DropOk(lim, View(), k, Expired);
      hide Ok;
      if k in entries {
        MapDelete(k);
        LruCountSnoc(evicted, Eviction(k, Expired));
        evicted := evicted + [Eviction(k, Expired)];
      }
    }

    static lemma HeadPresent(lim: Limits, m: Mem)
      requires Ok(lim, m)
      ensures m.order != [] ==> m.order[0] in m.entries
    {
    }

    method EvictOldest()
      requires Valid()
      modifies this
      ensures Valid()
      ensures View() == if old(order) == [] then old(View()) else Drop(old(View()), old(order)[0], LruCap)
    {
      hide Ok, LruCount, Without;
      if order == [] {
        return;
      }
      var oldest := order[0];
      HeadPresent(lim, View());
      DropOk(lim, View(), oldest, LruCap);
      MapDelete(oldest);
      totalEvictions := totalEvictions + 1;
      LruCountSnoc(evicted, Eviction(oldest, LruCap));
      evicted := evicted + [Eviction(oldest, LruCap)];
    }

    /** Enforce capacity before a key that is not yet present goes in. */
    method EnsureRoomForNewKey(k: Key, now: int)
      requires Valid()
      modifies this
      ensures Valid() && View() == EnsureRoom(lim, old(View()), k, now)
    {
      if lim.maxKeys == 0 || k in entries {
        return;
      }
      while |order| >= lim.maxKeys
        invariant Valid()
        invariant MakeRoom(lim, View(), now) == MakeRoom(lim, old(View()), now)
        decreases |order|
      {
        var head := order[0];
        DropHeadIsDrop(lim, View(), now);
        if EntryExpired(lim.strategy, entries[head], now) {
          DeleteKeyData(head);
        } else {
          EvictOldest();
        }
      }
    }

    method TouchKey(k: Key)
      requires Valid()
      modifies this
      ensures Valid() && View() == Touch(lim, old(View()), k)
    {
      if lim.maxKeys == 0 || k !in entries {
        return;
      }
      var s := entries[k];
      MapDelete(k);
      MapSet(k, s);
    }

    method ClearSlidingWallExpiryIfExpired(k: Key, now: int)
      requires Valid()
      modifies this
      ensures Valid() && View() == DropWallExpired(old(View()), k, now)
    {
      if k in entries && WallExpired(entries[k], now) {
        DeleteKeyData(k);
      }
    }

    // ----- increments ------------------------------------------------------------

    /** Take the key's stamps out of the map, or make room for them. */
    method ClaimSliding(k: Key, now: int) returns (stamps: seq<int>)
      requires Valid() && lim.strategy.SlidingWindow?
      modifies this
      ensures Valid() && View() == Claim(lim, old(View()), k, now)
      ensures var cur := Current(Lookup(old(View()), k), now);
              stamps == if cur.Some? then cur.value.stamps else []
    {
      ClearSlidingWallExpiryIfExpired(k, now);
      stamps := [];
      if k in entries {
        stamps := entries[k].stamps;
        MapDelete(k);
      } else {
        EnsureRoomForNewKey(k, now);
      }
    }

    method IncrementSliding(k: Key, override: Option<int>, cost: Cost, now: int) returns (r: Result)
      requires Valid() && lim.strategy.SlidingWindow?
      modifies this
      ensures Valid() && (View(), r) == IncrementKey(lim, old(View()), k, override, cost, now)
    {
      OkEntry(lim, View(), k);
      hide Ok, MakeRoom, Place, Claim, BucketIncrement, FixedIncrement, Cut;
      ClaimOk(lim, View(), k, now);
      var stamps := ClaimSliding(k, now);
      var trimmed := PushStamps(Cut(stamps, now - lim.strategy.windowMs), now, cost);
      MapSet(k, Sliding(trimmed, None));
      r := WindowResult(|trimmed|, CapFor(lim.strategy, override), trimmed[0] + lim.strategy.windowMs);
    }

    /** Where fixed-window and bucket increments, and every `set`, write their entry. */
    method Write(k: Key, s: KeyState, now: int)
      requires Valid() && Matches(lim.strategy, s)
      modifies this
      ensures Valid() && View() == Place(lim, old(View()), k, s, now)
    {
      hide MakeRoom;
      if k !in entries {
        EnsureRoomForNewKey(k, now);
      }
      if lim.maxKeys > 0 && k in entries {
        MapDelete(k);
      }
      MapSet(k, s);
    }

    method IncrementFixed(k: Key, override: Option<int>, cost: Cost, now: int) returns (r: Result)
      requires Valid() && lim.strategy.FixedWindow?
      modifies this
      ensures Valid() && (View(), r) == IncrementKey(lim, old(View()), k, override, cost, now)
    {
      OkEntry(lim, View(), k);
      hide Ok, MakeRoom, Place, Claim, SlidingIncrement, BucketIncrement;
      var next;
      if k !in entries || now >= entries[k].resetTime {
        next := Fixed(cost, now + lim.strategy.windowMs);
      } else {
        next := Fixed(entries[k].count + cost, entries[k].resetTime);
      }
      Write(k, next, now);
      r := WindowResult(next.count, CapFor(lim.strategy, override), next.resetTime);
    }

    /** Refill, then take the cost if the tokens suffice. */
    method TakeTokens(s: Option<KeyState>, cost: Cost, now: int, ghost override: Option<int>)
      returns (next: KeyState, r: Result)
      requires lim.strategy.Valid() && lim.strategy.TokenBucket? && MatchesOption(lim.strategy, s)
      ensures (next, r) == Entries.Increment(lim.strategy, s, override, cost, now)
    {
      var TokenBucket(perInterval, ms, size) := lim.strategy;
      var tokens, lastRefill := size, now;
      if s.Some? {
        tokens, lastRefill := s.value.tokens, s.value.lastRefill;
      }
      var intervals := (now - lastRefill) / ms;
      if intervals > 0 {
        tokens, lastRefill := Min(size, tokens + intervals * perInterval), lastRefill + intervals * ms;
      }
      if tokens >= cost {
        tokens := tokens - cost;
        return Bucket(tokens, lastRefill), Result(size - tokens, tokens, lastRefill + ms, false);
      }
      return Bucket(tokens, lastRefill), Result(size, 0, lastRefill + ms, true);
    }

    method IncrementTokenBucket(k: Key, cost: Cost, now: int, ghost override: Option<int>) returns (r: Result)
      requires Valid() && lim.strategy.TokenBucket?
      modifies this
      ensures Valid() && (View(), r) == IncrementKey(lim, old(View()), k, override, cost, now)
    {
      OkEntry(lim, View(), k);
      hide Ok, MakeRoom, Place, Claim, Entries.Increment;
      var next;
      next, r := TakeTokens(if k in entries then Some(entries[k]) else None, cost, now, override);
      Write(k, next, now);
    }

    method Increment(k: Key, override: Option<int>, cost: int, now: int) returns (r: Result)
      requires Valid()
      modifies this
      ensures Valid() && (View(), r) == IncrementKey(lim, old(View()), k, override, CostOf(cost), now)
    {
      OkEntry(lim, View(), k);
      hide Ok, IncrementKey;
      var n := CostOf(cost);
      match lim.strategy
      case SlidingWindow(_, _) => r := IncrementSliding(k, override, n, now);
      case FixedWindow(_, _) => r := IncrementFixed(k, override, n, now);
      case TokenBucket(_, _, _) => r := IncrementTokenBucket(k, n, now, override);
    }

    // ----- the other operations ----------------------------------------------------

    method DecrementSliding(k: Key, cost: Cost, removeNewest: bool)
      requires Valid() && lim.strategy.SlidingWindow?
      modifies this
      ensures Valid() && View() == DecrementKey(lim, old(View()), k, cost, removeNewest)
    {
      OkEntry(lim, View(), k);
      hide Ok, MakeRoom, Place, Claim, Refill;
      if k !in entries || entries[k].stamps == [] {
        return;
      }
      var stamps := entries[k].stamps;
      if removeNewest {
        stamps := PopStamps(stamps, cost);
      } else {
        stamps := ShiftStamps(stamps, cost);
      }
      if stamps == [] {
        MapDelete(k);
      } else {
        MapSet(k, entries[k].(stamps := stamps));
      }
    }

    method DecrementFixed(k: Key, cost: Cost)
      requires Valid() && lim.strategy.FixedWindow?
      modifies this
      ensures Valid() && forall b :: View() == DecrementKey(lim, old(View()), k, cost, b)
    {
      OkEntry(lim, View(), k);
      hide Ok, MakeRoom, Place, Claim, Refill;
      if k !in entries || entries[k].count <= 0 {
        return;
      }
      var next := entries[k].count - cost;
      if next <= 0 {
        MapDelete(k);
      } else {
        MapSet(k, Fixed(next, entries[k].resetTime));
      }
    }

    method DecrementTokenBucket(k: Key, cost: Cost)
      requires Valid() && lim.strategy.TokenBucket?
      modifies this
      ensures Valid() && forall b :: View() == DecrementKey(lim, old(View()), k, cost, b)
    {
      OkEntry(lim, View(), k);
      hide Ok, MakeRoom, Place, Claim, Refill;
      if k in entries {
        MapSet(k, Bucket(Min(lim.strategy.bucketSize, entries[k].tokens + cost), entries[k].lastRefill));
      }
    }

    method Decrement(k: Key, cost: int, removeNewest: bool)
      requires Valid()
      modifies this
      ensures Valid() && View() == DecrementKey(lim, old(View()), k, CostOf(cost), removeNewest)
    {
      var n := CostOf(cost);
      match lim.strategy
      case SlidingWindow(_, _) => DecrementSliding(k, n, removeNewest);
      case FixedWindow(_, _) => DecrementFixed(k, n);
      case TokenBucket(_, _, _) => DecrementTokenBucket(k, n);
    }

    method Reset(k: Key, now: int)
      requires Valid()
      modifies this
      ensures Valid() && View() == ResetKey(lim, old(View()), k, now)
    {
      match lim.strategy
      case SlidingWindow(_, _) => MapDelete(k);
      case FixedWindow(w, _) => MapSet(k, Fixed(0, now + w));
      case TokenBucket(_, _, size) => MapSet(k, Bucket(size, now));
    }

    method Get(k: Key, now: int) returns (r: Option<Result>)
      requires Valid()
      modifies this
      ensures Valid() && (View(), r) == GetKey(lim, old(View()), k, now)
    {
      ClearSlidingWallExpiryIfExpired(k, now);
      if k !in entries {
        return None;
      }
      r := Peek(lim, entries[k], now);
      if r.Some? {
        TouchKey(k);
      }
    }

    method SetHits(k: Key, totalHits: int, expiresAt: Option<int>, now: int) returns (r: Result)
      requires Valid()
      modifies this
      ensures Valid() && (View(), r) == SetKey(lim, old(View()), k, totalHits, expiresAt, now)
    {
      OkEntry(lim, View(), k);
      hide MakeRoom, Place;
      var (s, res) := Assigned(lim, totalHits, expiresAt, now);
      Write(k, s, now);
      r := res;
    }

    method PurgeKey(k: Key, pass: Pass, now: int)
      requires Valid()
      modifies this
      ensures Valid() && View() == PurgeOne(lim, old(View()), k, pass, now)
    {
      OkEntry(lim, View(), k);
      hide Ok;
      if k !in entries {
        return;
      }
      var s := entries[k];
      if pass.WallPass? {
        ClearSlidingWallExpiryIfExpired(k, now);
      } else if lim.strategy.SlidingWindow? {
        var live := Cut(s.stamps, now - lim.strategy.windowMs);
        if live == [] {
          DeleteKeyData(k);
        } else if |live| != |s.stamps| {
          MapSet(k, s.(stamps := live));
        }
      } else if EntryExpired(lim.strategy, s, now) {
        DeleteKeyData(k);
      }
    }

    /** One pass of the background purge over a snapshot of the keys. */
    method PurgePass(pass: Pass, now: int)
      requires Valid()
      modifies this
      ensures Valid() && View() == PurgeAll(lim, old(View()), old(order), pass, now)
    {
      var keys := order;
      for i := 0 to |keys|
        invariant Valid()
        invariant View() == PurgeAll(lim, old(View()), keys[..i], pass, now)
      {
        assert keys[..i + 1][..i] == keys[..i];
        PurgeKey(keys[i], pass, now);
      }
      assert keys[..|keys|] == keys;
    }

    method PurgeExpired(now: int)
      requires Valid()
      modifies this
      ensures Valid() && View() == Purge(lim, old(View()), now)
    {
      if lim.strategy.SlidingWindow? {
        PurgePass(WallPass, now);
      }
      PurgePass(TrimPass, now);
    }
  }
}
