/**
 The law of nested `all` compositions: the answer is that of the flat list of leaves, a
 blocked request leaves a trace only where a leaf itself blocked, and a decrement undoes an
 allowed one.
 */
module CompositionLaws {
  import opened Entries
  import opened EntryLaws
  import opened MemoryTable
  import opened Composition

  // ----- the law by structural induction ---------------------------------------------------

  /**
   What an increment promises of a store: the flat answer, the right charges, and that a decrement takes an allowed
   one back.
   */
  ghost predicate Lawful(s: Store, k: Key, cap: Option<int>, n: Cost, now: int, at: int)
    requires Good(s) && Windows(s, k)
  {
    var (a, r) := Incremented(s, k, cap, n, now);
    && r == Merged(LeafResults(s, k, cap, n, now))
    && Windows(a, k)
    && LeafCounts(a, k, at) == SettledCounts(s, k, cap, n, now, at, !r.isBlocked)
    && (r.isBlocked ==> SameFrames(s, a))
  }

  ghost predicate Undoes(s: Store, k: Key, cap: Option<int>, n: Cost, now: int, at: int, newest: bool)
    requires Good(s) && Windows(s, k)
  {
    var (a, r) := Incremented(s, k, cap, n, now);
    !r.isBlocked ==>
      var d := Decremented(a, k, n, newest);
      Windows(d, k) && SameFrames(s, d) && LeafCounts(d, k, at) == UndoneCounts(s, k, cap, n, now, at, newest)
  }

  lemma LeafLawful(s: Store, k: Key, cap: Option<int>, n: Cost, now: int, at: int)
    requires Good(s) && Windows(s, k) && s.Memory?
    ensures Lawful(s, k, cap, n, now, at)
  {
    hide Ok, IncrementKey, Increment, LiveCount;
    IncrementedEntry(s.lim, s.mem, k, cap, n, now);
    IncrementedNonNegative(s.lim.strategy, Lookup(s.mem, k), cap, n, now);
  }

  lemma IncrementedNonNegative(cfg: Strategy, s: Option<KeyState>, cap: Option<int>, n: Cost, now: int)
    requires cfg.Valid() && !cfg.TokenBucket? && MatchesOption(cfg, s) && NonNegative(s)
    ensures NonNegative(Some(Increment(cfg, s, cap, n, now).0))
  {
    hide SlidingIncrement, BucketIncrement, Cut;
  }

  lemma UndoneNonNegative(cfg: Strategy, s: Option<KeyState>, cap: Option<int>, n: Cost, now: int, newest: bool)
    requires cfg.Valid() && !cfg.TokenBucket? && MatchesOption(cfg, s) && NonNegative(s)
    ensures NonNegative(DecrementOption(cfg, Some(Increment(cfg, s, cap, n, now).0), n, newest))
  {
    hide LiveCount;
    ImmediateUndoRestoresCount(cfg, s, cap, n, now, newest);
  }

  lemma LeafUndoes(s: Store, k: Key, cap: Option<int>, n: Cost, now: int, at: int, newest: bool)
    requires Good(s) && Windows(s, k) && s.Memory?
    ensures Undoes(s, k, cap, n, now, at, newest)
  {
    hide Ok, IncrementKey, DecrementKey, Increment, LiveCount, DecrementOption;
    IncrementedEntry(s.lim, s.mem, k, cap, n, now);
    var m := Incremented(s, k, cap, n, now).0.mem;
    DecrementedEntry(s.lim, m, k, n, newest);
    UndoneNonNegative(s.lim.strategy, Lookup(s.mem, k), cap, n, now, newest);
  }

  /** When no leaf blocks, giving back from all but the blocking ones is giving back from all. */
  lemma {:induction false} UnblockedSettles(s: Store, k: Key, cap: Option<int>, n: Cost, now: int, at: int)
    requires Good(s) && Windows(s, k) && !AnyBlocked(LeafResults(s, k, cap, n, now))
    ensures SettledCounts(s, k, cap, n, now, at, false) == UndoneCounts(s, k, cap, n, now, at, true)
    decreases s
  {
    hide Increment, LiveCount, Ok, UndoneCount;
    if s.Memory? {
      OkEntry(s.lim, s.mem, k);
      assert !Blocks(LeafResults(s, k, cap, n, now)[0]);
    } else {
      UnblockedLayersSettle(s.layers, k, cap, n, now, at);
    }
  }

  lemma {:induction false} UnblockedLayersSettle(ls: Layers, k: Key, cap: Option<int>, n: Cost, now: int, at: int)
    requires GoodLayers(ls) && WindowLayers(ls, k) && !AnyBlocked(LayerResults(ls, k, cap, n, now))
    ensures SettledLayerCounts(ls, k, cap, n, now, at, false) == UndoneLayerCounts(ls, k, cap, n, now, at, true)
    decreases ls
  {
    if ls.And? {
      AnyBlockedConcat(LeafResults(ls.store, ls.rename(k), CapOf(ls.cap, cap), n, now),
        LayerResults(ls.rest, k, cap, n, now));
      hide AnyBlocked, SettledCounts, UndoneCounts, LeafResults;
      UnblockedSettles(ls.store, ls.rename(k), CapOf(ls.cap, cap), n, now, at);
      UnblockedLayersSettle(ls.rest, k, cap, n, now, at);
    }
  }

  lemma AnyBlockedConcat(a: seq<Result>, b: seq<Result>)
    ensures AnyBlocked(a + b) <==> AnyBlocked(a) || AnyBlocked(b)
  {
    if AnyBlocked(a) {
      var i :| 0 <= i < |a| && Blocks(a[i]);
      assert Blocks((a + b)[i]);
    }
    if AnyBlocked(b) {
      var i :| 0 <= i < |b| && Blocks(b[i]);
      assert Blocks((a + b)[|a| + i]);
    }
    if AnyBlocked(a + b) {
      var i :| 0 <= i < |a + b| && Blocks((a + b)[i]);
      assert if i < |a| then Blocks(a[i]) else Blocks(b[i - |a|]);
    }
  }

  /** The answers of the layers, one by one or leaf by leaf, merge to the same. */
  ghost predicate FlatAnswer(ls: Layers, k: Key, cap: Option<int>, n: Cost, now: int)
    requires GoodLayers(ls)
  {
    var rs := IncrementedLayers(ls, k, cap, n, now).1;
    ls.And? ==> Merged(rs) == Merged(LayerResults(ls, k, cap, n, now))
  }

  /** Rolling back takes the request from every layer that let it through, and from no other. */
  ghost predicate RollsBack(ls: Layers, k: Key, cap: Option<int>, n: Cost, now: int, at: int)
    requires GoodLayers(ls) && WindowLayers(ls, k)
  {
    var (a, rs) := IncrementedLayers(ls, k, cap, n, now);
    var b := RolledBack(a, rs, k, n);
    WindowLayers(b, k) && SameLayerFrames(ls, b)
    && LayerCounts(b, k, at) == SettledLayerCounts(ls, k, cap, n, now, at, false)
  }

  ghost predicate Charges(ls: Layers, k: Key, cap: Option<int>, n: Cost, now: int, at: int)
    requires GoodLayers(ls) && WindowLayers(ls, k)
  {
    var (a, rs) := IncrementedLayers(ls, k, cap, n, now);
    && WindowLayers(a, k)
    && (!AnyBlocked(rs) ==> LayerCounts(a, k, at) == SettledLayerCounts(ls, k, cap, n, now, at, true))
  }

  ghost predicate UndoesLayers(ls: Layers, k: Key, cap: Option<int>, n: Cost, now: int, at: int, newest: bool)
    requires GoodLayers(ls) && WindowLayers(ls, k)
  {
    var (a, rs) := IncrementedLayers(ls, k, cap, n, now);
    !AnyBlocked(rs) ==>
      var d := DecrementedLayers(a, k, n, newest);
      WindowLayers(d, k) && SameLayerFrames(ls, d)
        && LayerCounts(d, k, at) == UndoneLayerCounts(ls, k, cap, n, now, at, newest)
  }

  lemma FlatCons(ls: Layers, k: Key, cap: Option<int>, n: Cost, now: int)
    requires GoodLayers(ls) && ls.And? && FlatAnswer(ls.rest, k, cap, n, now)
    requires Incremented(ls.store, ls.rename(k), CapOf(ls.cap, cap), n, now).1
             == Merged(LeafResults(ls.store, ls.rename(k), CapOf(ls.cap, cap), n, now))
    ensures FlatAnswer(ls, k, cap, n, now)
  {
    hide Incremented, LeafResults;
    var res := Incremented(ls.store, ls.rename(k), CapOf(ls.cap, cap), n, now).1;
    var rs := IncrementedLayers(ls.rest, k, cap, n, now).1;
    var here := LeafResults(ls.store, ls.rename(k), CapOf(ls.cap, cap), n, now);
    if ls.rest.And? {
      MergedConcat([res], rs);
      MergedConcat(here, LayerResults(ls.rest, k, cap, n, now));
    } else {
      assert here + [] == here;
      assert IncrementedLayers(ls, k, cap, n, now).1 == [res];
      assert LayerResults(ls, k, cap, n, now) == here;
    }
  }

  lemma RollsBackCons(ls: Layers, k: Key, cap: Option<int>, n: Cost, now: int, at: int)
    requires GoodLayers(ls) && WindowLayers(ls, k) && ls.And? && RollsBack(ls.rest, k, cap, n, now, at)
    requires var (s, own) := (ls.store, CapOf(ls.cap, cap));
             Lawful(s, ls.rename(k), own, n, now, at) && Undoes(s, ls.rename(k), own, n, now, at, true)
    ensures RollsBack(ls, k, cap, n, now, at)
  {
    var (s, key, own) := (ls.store, ls.rename(k), CapOf(ls.cap, cap));
    MergedMeaning(LeafResults(s, key, own, n, now));
    hide Incremented, Decremented, SettledCounts, UndoneCounts, LeafCounts, LeafResults, AnyBlocked, Merged;
    var (a, rs) := IncrementedLayers(ls, k, cap, n, now);
    assert rs[1..] == IncrementedLayers(ls.rest, k, cap, n, now).1;
    if !rs[0].isBlocked {
      UnblockedSettles(s, key, own, n, now, at);
    }
  }

  lemma ChargesCons(ls: Layers, k: Key, cap: Option<int>, n: Cost, now: int, at: int)
    requires GoodLayers(ls) && WindowLayers(ls, k) && ls.And? && Charges(ls.rest, k, cap, n, now, at)
    requires Lawful(ls.store, ls.rename(k), CapOf(ls.cap, cap), n, now, at)
    ensures Charges(ls, k, cap, n, now, at)
  {
    var (a, rs) := IncrementedLayers(ls, k, cap, n, now);
    AnyBlockedCons(rs);
    hide Incremented, SettledCounts, LeafCounts, LeafResults, AnyBlocked, Merged;
    assert rs[1..] == IncrementedLayers(ls.rest, k, cap, n, now).1;
  }

  lemma UndoesCons(ls: Layers, k: Key, cap: Option<int>, n: Cost, now: int, at: int, newest: bool)
    requires GoodLayers(ls) && WindowLayers(ls, k) && ls.And? && UndoesLayers(ls.rest, k, cap, n, now, at, newest)
    requires Undoes(ls.store, ls.rename(k), CapOf(ls.cap, cap), n, now, at, newest)
    ensures UndoesLayers(ls, k, cap, n, now, at, newest)
  {
    var (a, rs) := IncrementedLayers(ls, k, cap, n, now);
    AnyBlockedCons(rs);
    hide Incremented, Decremented, LeafCounts, UndoneCounts, AnyBlocked;
    assert rs[1..] == IncrementedLayers(ls.rest, k, cap, n, now).1;
  }

  lemma {:induction false} LayersLaw(ls: Layers, k: Key, cap: Option<int>, n: Cost, now: int, at: int, newest: bool)
    requires GoodLayers(ls) && WindowLayers(ls, k)
    ensures FlatAnswer(ls, k, cap, n, now) && RollsBack(ls, k, cap, n, now, at) && Charges(ls, k, cap, n, now, at)
    ensures UndoesLayers(ls, k, cap, n, now, at, newest)
    decreases ls
  {
    if ls.And? {
      hide FlatAnswer, RollsBack, Charges, UndoesLayers, Undoes, Incremented, LeafResults, LeafCounts, AnyBlocked;
      StoreLaw(ls.store, ls.rename(k), CapOf(ls.cap, cap), n, now, at, true);
      StoreLaw(ls.store, ls.rename(k), CapOf(ls.cap, cap), n, now, at, newest);
      LayersLaw(ls.rest, k, cap, n, now, at, newest);
      FlatCons(ls, k, cap, n, now);
      RollsBackCons(ls, k, cap, n, now, at);
      ChargesCons(ls, k, cap, n, now, at);
      UndoesCons(ls, k, cap, n, now, at, newest);
    }
  }

  lemma AllLawful(s: Store, k: Key, cap: Option<int>, n: Cost, now: int, at: int)
    requires Good(s) && Windows(s, k) && s.All?
    requires FlatAnswer(s.layers, k, cap, n, now) && RollsBack(s.layers, k, cap, n, now, at)
    requires Charges(s.layers, k, cap, n, now, at)
    ensures Lawful(s, k, cap, n, now, at)
  {
    var rs := IncrementedLayers(s.layers, k, cap, n, now).1;
    MergedMeaning(rs);
    hide IncrementedLayers, RolledBack, LayerResults, LayerCounts, SettledLayerCounts, AnyBlocked, Merged;
  }

  lemma AllUndoes(s: Store, k: Key, cap: Option<int>, n: Cost, now: int, at: int, newest: bool)
    requires Good(s) && Windows(s, k) && s.All? && UndoesLayers(s.layers, k, cap, n, now, at, newest)
    ensures Undoes(s, k, cap, n, now, at, newest)
  {
    var rs := IncrementedLayers(s.layers, k, cap, n, now).1;
    MergedMeaning(rs);
    PushPop(s.depth, k);
    hide IncrementedLayers, DecrementedLayers, RolledBack, LayerCounts, UndoneLayerCounts, AnyBlocked, Merged, Push,
      Pop;
  }

  lemma PushPop(depth: map<Key, nat>, k: Key)
    requires forall x :: x in depth ==> depth[x] >= 1
    ensures DepthOf(Push(depth, k), k) >= 1 && Pop(Push(depth, k), k) == depth
  {
    assert k !in depth ==> depth - {k} == depth;
  }

  lemma {:induction false} StoreLaw(s: Store, k: Key, cap: Option<int>, n: Cost, now: int, at: int, newest: bool)
    requires Good(s) && Windows(s, k)
    ensures Lawful(s, k, cap, n, now, at) && Undoes(s, k, cap, n, now, at, newest)
    decreases s
  {
    hide Lawful, Undoes, FlatAnswer, RollsBack, Charges, UndoesLayers;
    if s.Memory? {
      LeafLawful(s, k, cap, n, now, at);
      LeafUndoes(s, k, cap, n, now, at, newest);
    } else {
      LayersLaw(s.layers, k, cap, n, now, at, newest);
      AllLawful(s, k, cap, n, now, at);
      AllUndoes(s, k, cap, n, now, at, newest);
    }
  }

  // ----- main results ------------------------------------------------------------------------

  /**
   The reported result is that of the flat list of leaves; in particular the request is allowed exactly when every
   leaf allows it.
   */
  lemma NestingIsFlat(s: Store, k: Key, cap: Option<int>, n: Cost, now: int)
    requires Good(s) && Windows(s, k)
    ensures var (r, leaves) := (Incremented(s, k, cap, n, now).1, LeafResults(s, k, cap, n, now));
            r == Merged(leaves) && (r.isBlocked <==> AnyBlocked(leaves))
  {
    StoreLaw(s, k, cap, n, now, now, true);
    MergedMeaning(LeafResults(s, k, cap, n, now));
    hide Incremented, LeafResults, Merged, AnyBlocked, LeafCounts, SettledCounts, UndoneCounts;
  }

  /**
   A blocked request: each leaf is charged the cost if it blocked itself and is untouched otherwise; no frame is left.
   */
  lemma BlockedChargesBlockersOnly(s: Store, k: Key, cap: Option<int>, n: Cost, now: int)
    requires Good(s) && Windows(s, k) && Incremented(s, k, cap, n, now).1.isBlocked
    ensures var (a, before, leaves) := (Incremented(s, k, cap, n, now).0, LeafCounts(s, k, now),
              LeafResults(s, k, cap, n, now));
            && SameFrames(s, a) && Windows(a, k) && |before| == |leaves| == |LeafCounts(a, k, now)|
            && forall i :: 0 <= i < |leaves| ==>
                 LeafCounts(a, k, now)[i] == before[i] + if leaves[i].isBlocked then n else 0
  {
    StoreLaw(s, k, cap, n, now, now, true);
    SettledNow(s, k, cap, n, now, false);
    ExpectedNow(s, k, cap, n, now, false);
    hide Incremented, LeafResults, Merged, LeafCounts, ExpectedCounts, SettledCounts, UndoneCounts;
  }

  /**
   Rolled back, the request was never there for the leaves that let it through: at a later time all counts are as if
   nobody had called them exactly when none of those leaves had a wall expiry that took something in between.
   */
  lemma RolledBackForGoodIff(s: Store, k: Key, cap: Option<int>, n: Cost, now: int, at: int)
    requires Good(s) && Windows(s, k) && now <= at && Incremented(s, k, cap, n, now).1.isBlocked
    ensures var a := Incremented(s, k, cap, n, now).0;
            && Windows(a, k)
            && (LeafCounts(a, k, at) == ExpectedCounts(s, k, cap, n, now, at, false) <==>
              Unwalled(s, k, cap, n, now, at, true))
  {
    hide Incremented, LeafResults, Merged, LeafCounts, ExpectedCounts, SettledCounts, UndoneCounts, Unwalled;
    StoreLaw(s, k, cap, n, now, at, true);
    SettledIff(s, k, cap, n, now, at);
  }

  /**
   An allowed request charges every leaf, and an immediate decrement, from either end, gives every count and every
   frame back.
   */
  lemma DecrementUndoesAllowed(s: Store, k: Key, cap: Option<int>, n: Cost, now: int, newest: bool)
    requires Good(s) && Windows(s, k) && !Incremented(s, k, cap, n, now).1.isBlocked
    ensures var a := Incremented(s, k, cap, n, now).0;
            var d := Decremented(a, k, n, newest);
            && Windows(a, k) && |LeafCounts(a, k, now)| == |LeafCounts(s, k, now)|
            && (forall i :: 0 <= i < |LeafCounts(s, k, now)| ==>
              LeafCounts(a, k, now)[i] == LeafCounts(s, k, now)[i] + n)
            && Windows(d, k) && SameFrames(s, d) && LeafCounts(d, k, now) == LeafCounts(s, k, now)
  {
    StoreLaw(s, k, cap, n, now, now, newest);
    SettledNow(s, k, cap, n, now, true);
    UndoneNow(s, k, cap, n, now, newest);
    ExpectedNow(s, k, cap, n, now, true);
    hide Incremented, Decremented, LeafResults, Merged, LeafCounts, ExpectedCounts, SettledCounts, UndoneCounts;
  }

  /**
   Taken back from the newest end, an allowed request was never there for any leaf, at any later time, but for wall
   expiries.
   */
  lemma NewestDecrementUndoesForGoodIff(s: Store, k: Key, cap: Option<int>, n: Cost, now: int, at: int)
    requires Good(s) && Windows(s, k) && now <= at && !Incremented(s, k, cap, n, now).1.isBlocked
    ensures var d := Decremented(Incremented(s, k, cap, n, now).0, k, n, true);
            && Windows(d, k) && SameFrames(s, d)
            && (LeafCounts(d, k, at) == LeafCounts(s, k, at) <==> Unwalled(s, k, cap, n, now, at, false))
  {
    hide Incremented, Decremented, LeafResults, Merged, LeafCounts, SettledCounts, UndoneCounts, Unwalled;
    StoreLaw(s, k, cap, n, now, at, true);
    UndoneIff(s, k, cap, n, now, at);
  }

  lemma ConcatEqual(a: seq<int>, b: seq<int>, c: seq<int>, d: seq<int>)
    requires |a| == |b|
    ensures a + c == b + d <==> a == b && c == d
  {
    if a + c == b + d {
      assert a == (a + c)[..|a|] && b == (b + d)[..|b|];
      assert c == (a + c)[|a|..] && d == (b + d)[|b|..];
    }
  }

  lemma {:induction false} SettledIff(s: Store, k: Key, cap: Option<int>, n: Cost, now: int, at: int)
    requires Good(s) && Windows(s, k) && now <= at
    ensures |SettledCounts(s, k, cap, n, now, at, false)| == |ExpectedCounts(s, k, cap, n, now, at, false)|
    ensures SettledCounts(s, k, cap, n, now, at, false) == ExpectedCounts(s, k, cap, n, now, at, false)
            <==> Unwalled(s, k, cap, n, now, at, true)
    decreases s
  {
    hide Ok, LiveCount, Increment, DecrementOption, WallHarmless;
    if s.Memory? {
      OkEntry(s.lim, s.mem, k);
      NewestUndoInvisibleIff(s.lim.strategy, Lookup(s.mem, k), cap, n, now, at);
    } else {
      SettledLayersIff(s.layers, k, cap, n, now, at);
    }
  }

  lemma {:induction false} SettledLayersIff(ls: Layers, k: Key, cap: Option<int>, n: Cost, now: int, at: int)
    requires GoodLayers(ls) && WindowLayers(ls, k) && now <= at
    ensures |SettledLayerCounts(ls, k, cap, n, now, at, false)| == |ExpectedLayerCounts(ls, k, cap, n, now, at, false)|
    ensures SettledLayerCounts(ls, k, cap, n, now, at, false) == ExpectedLayerCounts(ls, k, cap, n, now, at, false)
            <==> UnwalledLayers(ls, k, cap, n, now, at, true)
    decreases ls
  {
    if ls.And? {
      hide SettledCounts, ExpectedCounts, Unwalled;
      var (s, key, own) := (ls.store, ls.rename(k), CapOf(ls.cap, cap));
      SettledIff(s, key, own, n, now, at);
      SettledLayersIff(ls.rest, k, cap, n, now, at);
      ConcatEqual(SettledCounts(s, key, own, n, now, at, false), ExpectedCounts(s, key, own, n, now, at, false),
                  SettledLayerCounts(ls.rest, k, cap, n, now, at, false),
                  ExpectedLayerCounts(ls.rest, k, cap, n, now, at, false));
    }
  }

  lemma {:induction false} UndoneIff(s: Store, k: Key, cap: Option<int>, n: Cost, now: int, at: int)
    requires Good(s) && Windows(s, k) && now <= at
    ensures |UndoneCounts(s, k, cap, n, now, at, true)| == |LeafCounts(s, k, at)|
    ensures UndoneCounts(s, k, cap, n, now, at, true) == LeafCounts(s, k, at) <==>
            Unwalled(s, k, cap, n, now, at, false)
    decreases s
  {
    hide Ok, LiveCount, Increment, DecrementOption, WallHarmless;
    if s.Memory? {
      OkEntry(s.lim, s.mem, k);
      NewestUndoInvisibleIff(s.lim.strategy, Lookup(s.mem, k), cap, n, now, at);
    } else {
      UndoneLayersIff(s.layers, k, cap, n, now, at);
    }
  }

  lemma {:induction false} UndoneLayersIff(ls: Layers, k: Key, cap: Option<int>, n: Cost, now: int, at: int)
    requires GoodLayers(ls) && WindowLayers(ls, k) && now <= at
    ensures |UndoneLayerCounts(ls, k, cap, n, now, at, true)| == |LayerCounts(ls, k, at)|
    ensures UndoneLayerCounts(ls, k, cap, n, now, at, true) == LayerCounts(ls, k, at)
            <==> UnwalledLayers(ls, k, cap, n, now, at, false)
    decreases ls
  {
    if ls.And? {
      hide UndoneCounts, LeafCounts, Unwalled;
      var (s, key, own) := (ls.store, ls.rename(k), CapOf(ls.cap, cap));
      UndoneIff(s, key, own, n, now, at);
      UndoneLayersIff(ls.rest, k, cap, n, now, at);
      ConcatEqual(UndoneCounts(s, key, own, n, now, at, true), LeafCounts(s, key, at),
                  UndoneLayerCounts(ls.rest, k, cap, n, now, at, true), LayerCounts(ls.rest, k, at));
    }
  }

  /** At the instant of the request giving back restores every count, from either end. */
  lemma {:induction false} UndoneNow(s: Store, k: Key, cap: Option<int>, n: Cost, now: int, newest: bool)
    requires Good(s) && Windows(s, k)
    ensures UndoneCounts(s, k, cap, n, now, now, newest) == LeafCounts(s, k, now)
    decreases s
  {
    hide Ok, LiveCount, Increment, DecrementOption;
    if s.Memory? {
      OkEntry(s.lim, s.mem, k);
      ImmediateUndoRestoresCount(s.lim.strategy, Lookup(s.mem, k), cap, n, now, newest);
    } else {
      UndoneLayersNow(s.layers, k, cap, n, now, newest);
    }
  }

  lemma {:induction false} UndoneLayersNow(ls: Layers, k: Key, cap: Option<int>, n: Cost, now: int, newest: bool)
    requires GoodLayers(ls) && WindowLayers(ls, k)
    ensures UndoneLayerCounts(ls, k, cap, n, now, now, newest) == LayerCounts(ls, k, now)
    decreases ls
  {
    if ls.And? {
      hide UndoneCounts, LeafCounts;
      UndoneNow(ls.store, ls.rename(k), CapOf(ls.cap, cap), n, now, newest);
      UndoneLayersNow(ls.rest, k, cap, n, now, newest);
    }
  }

  lemma {:induction false} SettledNow(s: Store, k: Key, cap: Option<int>, n: Cost, now: int, chargeAll: bool)
    requires Good(s) && Windows(s, k)
    ensures SettledCounts(s, k, cap, n, now, now, chargeAll) == ExpectedCounts(s, k, cap, n, now, now, chargeAll)
    decreases s
  {
    hide Ok, LiveCount, Increment, DecrementOption;
    if s.Memory? {
      OkEntry(s.lim, s.mem, k);
      ImmediateUndoRestoresCount(s.lim.strategy, Lookup(s.mem, k), cap, n, now, true);
    } else {
      SettledLayersNow(s.layers, k, cap, n, now, chargeAll);
    }
  }

  lemma {:induction false} SettledLayersNow(ls: Layers, k: Key, cap: Option<int>, n: Cost, now: int, chargeAll: bool)
    requires GoodLayers(ls) && WindowLayers(ls, k)
    ensures SettledLayerCounts(ls, k, cap, n, now, now, chargeAll)
            == ExpectedLayerCounts(ls, k, cap, n, now, now, chargeAll)
    decreases ls
  {
    if ls.And? {
      hide SettledCounts, ExpectedCounts;
      SettledNow(ls.store, ls.rename(k), CapOf(ls.cap, cap), n, now, chargeAll);
      SettledLayersNow(ls.rest, k, cap, n, now, chargeAll);
    }
  }

  /** Read at the instant of the request, the expected counts are the old ones plus the cost where charged. */
  lemma {:induction false} ExpectedNow(s: Store, k: Key, cap: Option<int>, n: Cost, now: int, chargeAll: bool)
    requires Good(s) && Windows(s, k)
    ensures var (before, leaves, r) := (LeafCounts(s, k, now), LeafResults(s, k, cap, n, now),
              ExpectedCounts(s, k, cap, n, now, now, chargeAll));
            && |r| == |before| == |leaves|
            && forall i :: 0 <= i < |leaves| ==> r[i] == before[i] + if chargeAll || leaves[i].isBlocked then n else 0
    decreases s
  {
    hide Ok, LiveCount, Increment;
    if s.Memory? {
      OkEntry(s.lim, s.mem, k);
      IncrementCharges(s.lim.strategy, Lookup(s.mem, k), cap, n, now);
    } else {
      ExpectedLayersNow(s.layers, k, cap, n, now, chargeAll);
    }
  }

  lemma {:induction false} ExpectedLayersNow(ls: Layers, k: Key, cap: Option<int>, n: Cost, now: int, chargeAll: bool)
    requires GoodLayers(ls) && WindowLayers(ls, k)
    ensures var (before, leaves, r) := (LayerCounts(ls, k, now), LayerResults(ls, k, cap, n, now),
              ExpectedLayerCounts(ls, k, cap, n, now, now, chargeAll));
            && |r| == |before| == |leaves|
            && forall i :: 0 <= i < |leaves| ==> r[i] == before[i] + if chargeAll || leaves[i].isBlocked then n else 0
    decreases ls
  {
    if ls.And? {
      hide LeafCounts, LeafResults, ExpectedCounts;
      ExpectedNow(ls.store, ls.rename(k), CapOf(ls.cap, cap), n, now, chargeAll);
      ExpectedLayersNow(ls.rest, k, cap, n, now, chargeAll);
    }
  }
}
