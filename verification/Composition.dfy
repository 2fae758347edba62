/**
 Compositions of stores in mode `all`, nested to any depth: every layer is charged, and a
 request that any layer blocks is taken back from the layers that let it through.

 Layers are values, so the stores of one composition are distinct.
 */
module Composition {
  import opened Entries
  import opened EntryLaws
  import opened MemoryTable

  /**
   `depth[k]` is the height of key `k`'s stack of decrement frames. In this mode every frame
   lists all the layers, so the height is all there is to it; an empty stack is deleted.
   */
  datatype Store =
    | Memory(lim: Limits, mem: Mem)
    | All(layers: Layers, rollbackOnBlock: bool, depth: map<Key, nat>)

  /** Each layer may rename keys and may carry its own cap. */
  datatype Layers =
    | End
    | And(store: Store, rename: Key -> Key, cap: Option<int>, rest: Layers)

  ghost predicate Good(s: Store) {
    match s
    case Memory(lim, mem) => Ok(lim, mem)
    case All(layers, _, depth) => layers.And? && GoodLayers(layers) && forall k :: k in depth ==> depth[k] >= 1
  }

  ghost predicate GoodLayers(ls: Layers) {
    ls.And? ==> Good(ls.store) && GoodLayers(ls.rest)
  }

  // ----- merging results ------------------------------------------------------------------

  /** Most hits, least remaining; the soonest reset, among the blocked if there are any. */
  function Join(a: Result, b: Result): (r: Result) {
    Result(Max(a.totalHits, b.totalHits), Min(a.remaining, b.remaining),
           if a.isBlocked == b.isBlocked then Min(a.resetTime, b.resetTime)
           else if a.isBlocked then a.resetTime else b.resetTime,
           a.isBlocked || b.isBlocked)
  }

  function Merged(rs: seq<Result>): (r: Result)
    requires rs != []
  {
    if |rs| == 1 then rs[0] else Join(rs[0], Merged(rs[1..]))
  }

  predicate Blocks(r: Result) { r.isBlocked }

  predicate AnyBlocked(rs: seq<Result>) {
    exists i :: 0 <= i < |rs| && Blocks(rs[i])
  }

  lemma {:induction false} MergedConcat(a: seq<Result>, b: seq<Result>)
    requires a != [] && b != []
    ensures Merged(a + b) == Join(Merged(a), Merged(b))
  {
    assert (a + b)[1..] == a[1..] + b;
    if |a| > 1 {
      MergedConcat(a[1..], b);
    }
  }

  ghost predicate MostHits(rs: seq<Result>, x: int) {
    (exists i :: 0 <= i < |rs| && rs[i].totalHits == x) && forall i :: 0 <= i < |rs| ==> rs[i].totalHits <= x
  }

  ghost predicate LeastRemaining(rs: seq<Result>, x: int) {
    (exists i :: 0 <= i < |rs| && rs[i].remaining == x) && forall i :: 0 <= i < |rs| ==> x <= rs[i].remaining
  }

  ghost predicate SoonestReset(rs: seq<Result>, blocked: bool, x: int) {
    && (exists i :: 0 <= i < |rs| && rs[i].isBlocked == blocked && rs[i].resetTime == x)
    && forall i :: 0 <= i < |rs| && rs[i].isBlocked == blocked ==> x <= rs[i].resetTime
  }

  lemma MeaningOfOne(r: Result)
    ensures MostHits([r], r.totalHits) && LeastRemaining([r], r.remaining)
    ensures SoonestReset([r], r.isBlocked, r.resetTime) && (AnyBlocked([r]) <==> r.isBlocked)
  {
    assert [r][0] == r;
    assert Blocks([r][0]) == r.isBlocked;
  }

  lemma AnyBlockedCons(rs: seq<Result>)
    requires rs != []
    ensures AnyBlocked(rs) <==> rs[0].isBlocked || AnyBlocked(rs[1..])
  {
    assert Blocks(rs[0]) == rs[0].isBlocked;
    assert rs == [rs[0]] + rs[1..];
    assert forall i :: 0 <= i < |rs| - 1 ==> Blocks(rs[1..][i]) == Blocks(rs[i + 1]);
  }

  lemma FoldHits(rs: seq<Result>, t: int)
    requires rs != [] && MostHits(rs[1..], t)
    ensures MostHits(rs, Max(rs[0].totalHits, t))
  {
    assert rs == [rs[0]] + rs[1..];
    var i :| 0 <= i < |rs[1..]| && rs[1..][i].totalHits == t;
    assert rs[i + 1].totalHits == t;
  }

  lemma FoldRemaining(rs: seq<Result>, t: int)
    requires rs != [] && LeastRemaining(rs[1..], t)
    ensures LeastRemaining(rs, Min(rs[0].remaining, t))
  {
    assert rs == [rs[0]] + rs[1..];
    var i :| 0 <= i < |rs[1..]| && rs[1..][i].remaining == t;
    assert rs[i + 1].remaining == t;
  }

  lemma FoldReset(rs: seq<Result>, t: Result)
    requires rs != [] && (t.isBlocked <==> AnyBlocked(rs[1..])) && SoonestReset(rs[1..], t.isBlocked, t.resetTime)
    ensures SoonestReset(rs, Join(rs[0], t).isBlocked, Join(rs[0], t).resetTime)
  {
    assert rs == [rs[0]] + rs[1..];
    var i :| 0 <= i < |rs[1..]| && rs[1..][i].isBlocked == t.isBlocked && rs[1..][i].resetTime == t.resetTime;
    assert rs[i + 1].isBlocked == t.isBlocked;
    forall j | 0 <= j < |rs| && rs[j].isBlocked == Join(rs[0], t).isBlocked
      ensures Join(rs[0], t).resetTime <= rs[j].resetTime
    {
      if j > 0 {
        assert Blocks(rs[1..][j - 1]) == rs[j].isBlocked;
      }
    }
  }

  /** What the merged result means, in terms of the parts. */
  lemma {:induction false} MergedMeaning(rs: seq<Result>)
    requires rs != []
    ensures var r := Merged(rs);
            && (r.isBlocked <==> AnyBlocked(rs))
            && MostHits(rs, r.totalHits) && LeastRemaining(rs, r.remaining)
            && SoonestReset(rs, r.isBlocked, r.resetTime)
  {
    hide AnyBlocked, MostHits, LeastRemaining, SoonestReset;
    if |rs| == 1 {
      MeaningOfOne(rs[0]);
      assert rs == [rs[0]];
    } else {
      MergedMeaning(rs[1..]);
      var t := Merged(rs[1..]);
      AnyBlockedCons(rs);
      FoldHits(rs, t.totalHits);
      FoldRemaining(rs, t.remaining);
      FoldReset(rs, t);
    }
  }

  // ----- increment and decrement --------------------------------------------------------------

  /** A layer's own cap wins over the caller's. */
  function CapOf(layer: Option<int>, base: Option<int>): (cap: Option<int>) {
    if layer.Some? then layer else base
  }

  function DepthOf(depth: map<Key, nat>, k: Key): (n: nat) {
    if k in depth then depth[k] else 0
  }

  function Push(depth: map<Key, nat>, k: Key): (r: map<Key, nat>) {
    depth[k := DepthOf(depth, k) + 1]
  }

  function Pop(depth: map<Key, nat>, k: Key): (r: map<Key, nat>) {
    if DepthOf(depth, k) <= 1 then depth - {k} else depth[k := depth[k] - 1]
  }

  ghost function Incremented(s: Store, k: Key, cap: Option<int>, n: Cost, now: int): (r: (Store, Result))
    requires Good(s)
    ensures Good(r.0)
  {
    match s
    case Memory(lim, mem) =>
      IncrementKeyOk(lim, mem, k, cap, n, now);
      var (next, res) := IncrementKey(lim, mem, k, cap, n, now);
      (Memory(lim, next), res)
    case All(layers, rollback, depth) =>
      var (ls, rs) := IncrementedLayers(layers, k, cap, n, now);
      if AnyBlocked(rs) then
        (All(if rollback then RolledBack(ls, rs, k, n) else ls, rollback, depth), Merged(rs))
      else
        (All(ls, rollback, Push(depth, k)), Merged(rs))
  }

  ghost function IncrementedLayers(ls: Layers, k: Key, cap: Option<int>, n: Cost, now: int): (r: (Layers, seq<Result>))
    requires GoodLayers(ls)
    ensures GoodLayers(r.0) && |r.1| == Count(r.0) == Count(ls)
  {
    match ls
    case End => (End, [])
    case And(store, rename, own, rest) =>
      var (s, res) := Incremented(store, rename(k), CapOf(own, cap), n, now);
      var (more, rs) := IncrementedLayers(rest, k, cap, n, now);
      (And(s, rename, own, more), [res] + rs)
  }

  function Count(ls: Layers): (n: nat) {
    if ls.End? then 0 else 1 + Count(ls.rest)
  }

  /** Only a layer that let the request through is decremented, from the newest end. */
  ghost function RolledBack(ls: Layers, rs: seq<Result>, k: Key, n: Cost): (r: Layers)
    requires GoodLayers(ls) && |rs| == Count(ls)
    ensures GoodLayers(r) && Count(r) == Count(ls)
  {
    match ls
    case End => End
    case And(store, rename, own, rest) =>
      And(if Blocks(rs[0]) then store else Decremented(store, rename(k), n, true),
          rename, own, RolledBack(rest, rs[1..], k, n))
  }

  ghost function Decremented(s: Store, k: Key, n: Cost, removeNewest: bool): (r: Store)
    requires Good(s)
    ensures Good(r)
  {
    match s
    case Memory(lim, mem) =>
      OkEntry(lim, mem, k);
      DecrementKeyOk(lim, mem, k, n, removeNewest);
      Memory(lim, DecrementKey(lim, mem, k, n, removeNewest))
    case All(layers, rollback, depth) =>
      if DepthOf(depth, k) == 0 then s
      else All(DecrementedLayers(layers, k, n, removeNewest), rollback, Pop(depth, k))
  }

  ghost function DecrementedLayers(ls: Layers, k: Key, n: Cost, removeNewest: bool): (r: Layers)
    requires GoodLayers(ls)
    ensures GoodLayers(r) && Count(r) == Count(ls)
  {
    match ls
    case End => End
    case And(store, rename, own, rest) =>
      And(Decremented(store, rename(k), n, removeNewest), rename, own, DecrementedLayers(rest, k, n, removeNewest))
  }

  // ----- whose cap counts --------------------------------------------------------------------------

  /** The cap that a window layer is held to: its own, else the caller's, else its store's. */
  function HeldCap(cfg: Strategy, own: Option<int>, asked: Option<int>): (cap: int)
    requires !cfg.TokenBucket?
  {
    match (own, asked)
    case (Some(c), _) => if c < 1 then cfg.maxRequests else c
    case (None, Some(c)) => if c < 1 then cfg.maxRequests else c
    case (None, None) => cfg.maxRequests
  }

  lemma HeldCapIs(cfg: Strategy, own: Option<int>, asked: Option<int>)
    requires cfg.Valid() && !cfg.TokenBucket?
    ensures CapFor(cfg, CapOf(own, asked)) == HeldCap(cfg, own, asked)
  {
  }

  /** The `i`-th layer, with those behind it. */
  function LayerAt(ls: Layers, i: nat): (r: Layers)
    requires i < Count(ls)
    ensures r.And?
  {
    if i == 0 then ls else LayerAt(ls.rest, i - 1)
  }

  /** A layer that carries a cap answers the same whatever the caller asks for. */
  lemma {:induction false} OwnCapWins(ls: Layers, k: Key, a: Option<int>, b: Option<int>, n: Cost, now: int, i: nat)
    requires GoodLayers(ls) && i < Count(ls) && LayerAt(ls, i).cap.Some?
    ensures IncrementedLayers(ls, k, a, n, now).1[i] == IncrementedLayers(ls, k, b, n, now).1[i]
  {
    hide Ok, IncrementKey;
    if i > 0 {
      OwnCapWins(ls.rest, k, a, b, n, now, i - 1);
    }
  }

  /** What a window store answers that is held to `cap`. */
  ghost predicate MeasuredBy(r: Result, hits: int, cap: int) {
    r.totalHits == hits && (r.isBlocked <==> hits > cap) && r.remaining == if hits > cap then 0 else cap - hits
  }

  lemma LeafHeldToCap(lim: Limits, mem: Mem, k: Key, own: Option<int>, asked: Option<int>, n: Cost, now: int)
    requires Ok(lim, mem) && !lim.strategy.TokenBucket?
    ensures MatchesOption(lim.strategy, Lookup(mem, k))
    ensures MeasuredBy(IncrementKey(lim, mem, k, CapOf(own, asked), n, now).1,
              LiveCount(lim.strategy, Lookup(mem, k), now) + n, HeldCap(lim.strategy, own, asked))
  {
    var cap := CapOf(own, asked);
    IncrementedEntry(lim, mem, k, cap, n, now);
    IncrementCharges(lim.strategy, Lookup(mem, k), cap, n, now);
    HeldCapIs(lim.strategy, own, asked);
    hide Ok, IncrementKey, LiveCount, HeldCap, CapFor, CapOf, Increment;
  }

  /** A layer over a window store blocks exactly when the charged count passes the cap that it is held to. */
  lemma {:induction false} LayerHeldToCap(ls: Layers, k: Key, asked: Option<int>, n: Cost, now: int, i: nat)
    requires GoodLayers(ls) && i < Count(ls)
    requires var leaf := LayerAt(ls, i).store; leaf.Memory? && !leaf.lim.strategy.TokenBucket?
    ensures var (leaf, layer) := (LayerAt(ls, i).store, LayerAt(ls, i));
            && MatchesOption(leaf.lim.strategy, Lookup(leaf.mem, layer.rename(k)))
            && MeasuredBy(IncrementedLayers(ls, k, asked, n, now).1[i],
                 LiveCount(leaf.lim.strategy, Lookup(leaf.mem, layer.rename(k)), now) + n,
                 HeldCap(leaf.lim.strategy, layer.cap, asked))
  {
    hide Ok, IncrementKey, LiveCount, HeldCap, MeasuredBy, MatchesOption, CapOf, RolledBack, Merged;
    if i > 0 {
      LayerHeldToCap(ls.rest, k, asked, n, now, i - 1);
    } else {
      LeafHeldToCap(ls.store.lim, ls.store.mem, ls.rename(k), ls.cap, asked, n, now);
    }
  }

  // ----- what the leaves see -------------------------------------------------------------------

  /** Window stores only, rollback on everywhere, counts as any run of operations leaves them. */
  ghost predicate Windows(s: Store, k: Key) {
    match s
    case Memory(lim, mem) => !lim.strategy.TokenBucket? && NonNegative(Lookup(mem, k))
    case All(layers, rollback, _) => rollback && WindowLayers(layers, k)
  }

  ghost predicate WindowLayers(ls: Layers, k: Key) {
    ls.And? ==> Windows(ls.store, ls.rename(k)) && WindowLayers(ls.rest, k)
  }

  /** Every leaf's live count for the key, left to right. */
  ghost function LeafCounts(s: Store, k: Key, at: int): (counts: seq<int>)
    requires Good(s) && Windows(s, k)
  {
    match s
    case Memory(lim, mem) => OkEntry(lim, mem, k); [LiveCount(lim.strategy, Lookup(mem, k), at)]
    case All(layers, _, _) => LayerCounts(layers, k, at)
  }

  ghost function LayerCounts(ls: Layers, k: Key, at: int): (counts: seq<int>)
    requires GoodLayers(ls) && WindowLayers(ls, k)
  {
    if ls.End? then [] else LeafCounts(ls.store, ls.rename(k), at) + LayerCounts(ls.rest, k, at)
  }

  /** What each leaf answers by itself. */
  ghost function LeafResults(s: Store, k: Key, cap: Option<int>, n: Cost, now: int): (rs: seq<Result>)
    requires Good(s)
    ensures rs != []
  {
    match s
    case Memory(lim, mem) => OkEntry(lim, mem, k); [Increment(lim.strategy, Lookup(mem, k), cap, n, now).1]
    case All(layers, _, _) => LayerResults(layers, k, cap, n, now)
  }

  ghost function LayerResults(ls: Layers, k: Key, cap: Option<int>, n: Cost, now: int): (rs: seq<Result>)
    requires GoodLayers(ls)
    ensures ls.And? ==> rs != []
  {
    if ls.End? then []
    else LeafResults(ls.store, ls.rename(k), CapOf(ls.cap, cap), n, now) + LayerResults(ls.rest, k, cap, n, now)
  }

  /** The counts to expect: a charged leaf has its own increment, any other is as if nobody had called. */
  ghost function ExpectedCounts(s: Store, k: Key, cap: Option<int>, n: Cost, now: int, at: int,
      chargeAll: bool): (counts: seq<int>)
    requires Good(s) && Windows(s, k)
  {
    match s
    case Memory(lim, mem) =>
      OkEntry(lim, mem, k);
      var (next, res) := Increment(lim.strategy, Lookup(mem, k), cap, n, now);
      [LiveCount(lim.strategy, if chargeAll || res.isBlocked then Some(next) else Lookup(mem, k), at)]
    case All(layers, _, _) => ExpectedLayerCounts(layers, k, cap, n, now, at, chargeAll)
  }

  ghost function ExpectedLayerCounts(ls: Layers, k: Key, cap: Option<int>, n: Cost, now: int, at: int,
      chargeAll: bool): (counts: seq<int>)
    requires GoodLayers(ls) && WindowLayers(ls, k)
  {
    if ls.End? then []
    else ExpectedCounts(ls.store, ls.rename(k), CapOf(ls.cap, cap), n, now, at, chargeAll)
         + ExpectedLayerCounts(ls.rest, k, cap, n, now, at, chargeAll)
  }

  /** A leaf's count after its own increment was given back. */
  ghost function UndoneCount(lim: Limits, mem: Mem, k: Key, cap: Option<int>, n: Cost, now: int, at: int,
      newest: bool): (c: int)
    requires Ok(lim, mem) && !lim.strategy.TokenBucket?
  {
    OkEntry(lim, mem, k);
    LiveCount(lim.strategy,
      DecrementOption(lim.strategy, Some(Increment(lim.strategy, Lookup(mem, k), cap, n, now).0), n, newest), at)
  }

  /** The counts when every leaf was charged and given back. */
  ghost function UndoneCounts(s: Store, k: Key, cap: Option<int>, n: Cost, now: int, at: int,
      newest: bool): (counts: seq<int>)
    requires Good(s) && Windows(s, k)
  {
    match s
    case Memory(lim, mem) => [UndoneCount(lim, mem, k, cap, n, now, at, newest)]
    case All(layers, _, _) => UndoneLayerCounts(layers, k, cap, n, now, at, newest)
  }

  ghost function UndoneLayerCounts(ls: Layers, k: Key, cap: Option<int>, n: Cost, now: int, at: int,
      newest: bool): (counts: seq<int>)
    requires GoodLayers(ls) && WindowLayers(ls, k)
  {
    if ls.End? then []
    else UndoneCounts(ls.store, ls.rename(k), CapOf(ls.cap, cap), n, now, at, newest)
         + UndoneLayerCounts(ls.rest, k, cap, n, now, at, newest)
  }

  /**
   The counts when every leaf was charged, and all but the blocking ones, or none at all, given back from the newest
   end.
   */
  ghost function SettledCounts(s: Store, k: Key, cap: Option<int>, n: Cost, now: int, at: int,
      chargeAll: bool): (counts: seq<int>)
    requires Good(s) && Windows(s, k)
  {
    match s
    case Memory(lim, mem) =>
      OkEntry(lim, mem, k);
      var (next, res) := Increment(lim.strategy, Lookup(mem, k), cap, n, now);
      [if chargeAll || res.isBlocked then LiveCount(lim.strategy, Some(next), at)
        else UndoneCount(lim, mem, k, cap, n, now, at, true)]
    case All(layers, _, _) => SettledLayerCounts(layers, k, cap, n, now, at, chargeAll)
  }

  ghost function SettledLayerCounts(ls: Layers, k: Key, cap: Option<int>, n: Cost, now: int, at: int,
      chargeAll: bool): (counts: seq<int>)
    requires GoodLayers(ls) && WindowLayers(ls, k)
  {
    if ls.End? then []
    else SettledCounts(ls.store, ls.rename(k), CapOf(ls.cap, cap), n, now, at, chargeAll)
         + SettledLayerCounts(ls.rest, k, cap, n, now, at, chargeAll)
  }

  /**
   No wall expiry of the leaves, or of those that let the request through, takes anything by `at` that would be live.
   */
  ghost predicate Unwalled(s: Store, k: Key, cap: Option<int>, n: Cost, now: int, at: int, passersOnly: bool)
    requires Good(s) && Windows(s, k)
  {
    match s
    case Memory(lim, mem) =>
      OkEntry(lim, mem, k);
      (passersOnly && Increment(lim.strategy, Lookup(mem, k), cap, n, now).1.isBlocked)
      || WallHarmless(lim.strategy, Lookup(mem, k), now, at)
    case All(layers, _, _) => UnwalledLayers(layers, k, cap, n, now, at, passersOnly)
  }

  ghost predicate UnwalledLayers(ls: Layers, k: Key, cap: Option<int>, n: Cost, now: int, at: int, passersOnly: bool)
    requires GoodLayers(ls) && WindowLayers(ls, k)
  {
    ls.And? ==>
      && Unwalled(ls.store, ls.rename(k), CapOf(ls.cap, cap), n, now, at, passersOnly)
      && UnwalledLayers(ls.rest, k, cap, n, now, at, passersOnly)
  }

  /** Same tree, same frame stacks: only what the leaves store may differ. */
  ghost predicate SameFrames(a: Store, b: Store) {
    match a
    case Memory(lim, _) => b.Memory? && b.lim == lim
    case All(layers, rollback, depth) =>
      b.All? && b.rollbackOnBlock == rollback && b.depth == depth && SameLayerFrames(layers, b.layers)
  }

  ghost predicate SameLayerFrames(a: Layers, b: Layers) {
    if a.End? then b.End?
    else
      && b.And? && b.rename == a.rename && b.cap == a.cap
      && SameFrames(a.store, b.store) && SameLayerFrames(a.rest, b.rest)
  }

  // ----- a leaf's entry --------------------------------------------------------------------------

  lemma IncrementedEntry(lim: Limits, m: Mem, k: Key, cap: Option<int>, n: Cost, now: int)
    requires Ok(lim, m)
    ensures lim.strategy.Valid() && MatchesOption(lim.strategy, Lookup(m, k))
    ensures var (next, res) := Increment(lim.strategy, Lookup(m, k), cap, n, now);
            Lookup(IncrementKey(lim, m, k, cap, n, now).0, k) == Some(next)
              && IncrementKey(lim, m, k, cap, n, now).1 == res
  {
    OkEntry(lim, m, k);
    hide Ok, Increment, MakeRoom;
  }

  lemma DecrementedEntry(lim: Limits, m: Mem, k: Key, n: Cost, newest: bool)
    requires Ok(lim, m)
    ensures lim.strategy.Valid() && MatchesOption(lim.strategy, Lookup(m, k))
    ensures Lookup(DecrementKey(lim, m, k, n, newest), k) == DecrementOption(lim.strategy, Lookup(m, k), n, newest)
  {
    OkEntry(lim, m, k);
    hide Ok, Decrement;
  }
}
