/**
 A composition over in-process stores, as the object it is: the layers are charged one by one,
 the rollback walks the results, and a stack of frames per key remembers what to give back.
 */
module ComposedStore {
  import opened Entries
  import opened MemoryTable
  import opened MemoryStore
  import opened Composition
  import Overflow

  datatype LayerSpec = LayerSpec(store: MemoryStore, rename: Key -> Key, cap: Option<int>)

  /** The layers as values, from the states of their stores. */
  ghost function Tree(specs: seq<LayerSpec>, mems: seq<Mem>): (ls: Layers)
    requires |specs| == |mems|
  {
    if specs == [] then End
    else And(Memory(specs[0].store.lim, mems[0]), specs[0].rename, specs[0].cap, Tree(specs[1..], mems[1..]))
  }

  ghost predicate OkMems(specs: seq<LayerSpec>, mems: seq<Mem>) {
    |specs| == |mems| && forall i :: 0 <= i < |specs| ==> Ok(specs[i].store.lim, mems[i])
  }

  lemma {:induction false} TreeGood(specs: seq<LayerSpec>, mems: seq<Mem>)
    requires OkMems(specs, mems)
    ensures GoodLayers(Tree(specs, mems)) && Count(Tree(specs, mems)) == |specs|
  {
    hide Ok;
    if specs != [] {
      TreeGood(specs[1..], mems[1..]);
    }
  }

  /** `after[i]` and `rs[i]` are what an increment makes of layer `i`. */
  ghost predicate ChargedAt(spec: LayerSpec, before: Mem, after: Mem, res: Result, k: Key, cap: Option<int>, n: Cost,
      now: int) {
    Ok(spec.store.lim, before)
      && (after, res) == IncrementKey(spec.store.lim, before, spec.rename(k), CapOf(spec.cap, cap), n, now)
  }

  lemma {:induction false} TreeCharged(specs: seq<LayerSpec>, before: seq<Mem>, after: seq<Mem>, rs: seq<Result>,
      k: Key, cap: Option<int>, n: Cost, now: int)
    requires OkMems(specs, before) && |specs| == |after| == |rs|
    requires forall i :: 0 <= i < |specs| ==> ChargedAt(specs[i], before[i], after[i], rs[i], k, cap, n, now)
    ensures GoodLayers(Tree(specs, before))
    ensures IncrementedLayers(Tree(specs, before), k, cap, n, now) == (Tree(specs, after), rs)
  {
    hide Ok, IncrementKey;
    TreeGood(specs, before);
    if specs != [] {
      assert ChargedAt(specs[0], before[0], after[0], rs[0], k, cap, n, now);
      TreeCharged(specs[1..], before[1..], after[1..], rs[1..], k, cap, n, now);
      assert rs == [rs[0]] + rs[1..];
    } else {
      assert rs == [];
    }
  }

  /** `after` is `before` with the request given back, or left alone. */
  ghost predicate GivenBackAt(spec: LayerSpec, before: Mem, after: Mem, give: bool, k: Key, n: Cost, newest: bool) {
    && Ok(spec.store.lim, before)
    && MatchesOption(spec.store.lim.strategy, Lookup(before, spec.rename(k))) && spec.store.lim.strategy.Valid()
    && after == if give then DecrementKey(spec.store.lim, before, spec.rename(k), n, newest) else before
  }

  lemma {:induction false} TreeRolledBack(specs: seq<LayerSpec>, before: seq<Mem>, after: seq<Mem>, rs: seq<Result>,
      k: Key, n: Cost)
    requires OkMems(specs, before) && |specs| == |after| == |rs|
    requires forall i :: 0 <= i < |specs| ==> GivenBackAt(specs[i], before[i], after[i], !rs[i].isBlocked, k, n, true)
    ensures GoodLayers(Tree(specs, before)) && |rs| == Count(Tree(specs, before))
    ensures RolledBack(Tree(specs, before), rs, k, n) == Tree(specs, after)
  {
    hide Ok, DecrementKey;
    TreeGood(specs, before);
    if specs != [] {
      assert GivenBackAt(specs[0], before[0], after[0], !rs[0].isBlocked, k, n, true);
      TreeRolledBack(specs[1..], before[1..], after[1..], rs[1..], k, n);
    }
  }

  lemma {:induction false} TreeDecremented(specs: seq<LayerSpec>, before: seq<Mem>, after: seq<Mem>, k: Key, n: Cost,
      newest: bool)
    requires OkMems(specs, before) && |specs| == |after|
    requires forall i :: 0 <= i < |specs| ==> GivenBackAt(specs[i], before[i], after[i], true, k, n, newest)
    ensures GoodLayers(Tree(specs, before))
    ensures DecrementedLayers(Tree(specs, before), k, n, newest) == Tree(specs, after)
  {
    hide Ok, DecrementKey;
    TreeGood(specs, before);
    if specs != [] {
      assert GivenBackAt(specs[0], before[0], after[0], true, k, n, newest);
      TreeDecremented(specs[1..], before[1..], after[1..], k, n, newest);
    }
  }

  datatype Mode = AllMode | OverflowMode

  function Indices(n: nat): (r: seq<nat>) {
    seq(n, i => i)
  }

  /** Which layer each frame of an overflow stack names. */
  function Named(stack: seq<seq<nat>>): (r: seq<nat>) {
    seq(|stack|, i requires 0 <= i < |stack| => if stack[i] == [] then 0 else stack[i][0])
  }

  function NamedAll(stacks: map<Key, seq<seq<nat>>>): (r: map<Key, seq<nat>>) {
    map k | k in stacks :: Named(stacks[k])
  }

  lemma NamedPush(stacks: map<Key, seq<seq<nat>>>, k: Key, layer: nat)
    ensures NamedAll(stacks[k := (if k in stacks then stacks[k] else []) + [[layer]]])
            == Overflow.PushFrame(NamedAll(stacks), k, layer)
  {
    var s := if k in stacks then stacks[k] else [];
    assert Named(s + [[layer]]) == Named(s) + [layer];
  }

  lemma NamedPop(stacks: map<Key, seq<seq<nat>>>, k: Key)
    requires k in stacks && stacks[k] != []
    ensures var s := stacks[k];
            NamedAll(if |s| == 1 then stacks - {k} else stacks[k := s[..|s| - 1]])
              == Overflow.PopFrame(NamedAll(stacks), k)
  {
    var s := stacks[k];
    assert Named(s[..|s| - 1]) == Named(s)[..|s| - 1];
  }

  function Depths(stacks: map<Key, seq<seq<nat>>>): (r: map<Key, nat>) {
    map k | k in stacks :: |stacks[k]|
  }

  lemma DepthsPush(stacks: map<Key, seq<seq<nat>>>, k: Key, frame: seq<nat>)
    ensures Depths(stacks[k := (if k in stacks then stacks[k] else []) + [frame]]) == Push(Depths(stacks), k)
  {
  }

  lemma DepthsPop(stacks: map<Key, seq<seq<nat>>>, k: Key)
    requires k in stacks && stacks[k] != []
    ensures var s := stacks[k];
            Depths(if |s| == 1 then stacks - {k} else stacks[k := s[..|s| - 1]]) == Pop(Depths(stacks), k)
  {
  }

  method Largest(xs: seq<int>) returns (r: int)
    requires xs != []
    ensures r in xs && forall i :: 0 <= i < |xs| ==> xs[i] <= r
  {
    r := xs[0];
    for i := 1 to |xs|
      invariant r in xs && forall j :: 0 <= j < i ==> xs[j] <= r
    {
      if xs[i] > r {
        r := xs[i];
      }
    }
  }

  method Smallest(xs: seq<int>) returns (r: int)
    requires xs != []
    ensures r in xs && forall i :: 0 <= i < |xs| ==> r <= xs[i]
  {
    r := xs[0];
    for i := 1 to |xs|
      invariant r in xs && forall j :: 0 <= j < i ==> r <= xs[j]
    {
      if xs[i] < r {
        r := xs[i];
      }
    }
  }

  method BlockedOnes(rs: seq<Result>) returns (blocked: seq<Result>)
    ensures forall i :: 0 <= i < |blocked| ==> blocked[i] in rs && blocked[i].isBlocked
    ensures forall i :: 0 <= i < |rs| && rs[i].isBlocked ==> rs[i] in blocked
  {
    blocked := [];
    for i := 0 to |rs|
      invariant forall j :: 0 <= j < |blocked| ==> blocked[j] in rs && blocked[j].isBlocked
      invariant forall j :: 0 <= j < i && rs[j].isBlocked ==> rs[j] in blocked
    {
      if rs[i].isBlocked {
        blocked := blocked + [rs[i]];
      }
    }
  }

  /**
   The result as the source builds it: most hits and least remaining of all, soonest reset of the blocked ones if
   there are any.
   */
  method MergeResults(rs: seq<Result>) returns (r: Result)
    requires rs != []
    ensures r == Merged(rs)
  {
    hide Merged;
    var blocked := BlockedOnes(rs);
    var pool := if blocked != [] then blocked else rs;
    var allHits := seq(|rs|, i requires 0 <= i < |rs| => rs[i].totalHits);
    var allRemaining := seq(|rs|, i requires 0 <= i < |rs| => rs[i].remaining);
    var resets := seq(|pool|, i requires 0 <= i < |pool| => pool[i].resetTime);
    var hits := Largest(allHits);
    var remaining := Smallest(allRemaining);
    var reset := Smallest(resets);
    assert forall i :: 0 <= i < |rs| ==>
      rs[i].totalHits == allHits[i] <= hits && rs[i].remaining == allRemaining[i] >= remaining;
    assert forall i :: 0 <= i < |pool| ==> pool[i].resetTime == resets[i] >= reset;
    r := Result(hits, remaining, reset, blocked != []);
    SameMerge(rs, pool, r);
  }

  /** The merged result is the only one with that meaning. */
  lemma SameMerge(rs: seq<Result>, pool: seq<Result>, r: Result)
    requires rs != [] && pool != [] && (r.isBlocked || pool == rs)
    requires r.isBlocked ==> forall i :: 0 <= i < |pool| ==> pool[i] in rs && pool[i].isBlocked
    requires forall i :: 0 <= i < |rs| && rs[i].isBlocked ==> r.isBlocked && rs[i] in pool
    requires MostHits(rs, r.totalHits) && LeastRemaining(rs, r.remaining)
    requires exists i :: 0 <= i < |pool| && pool[i].resetTime == r.resetTime
    requires forall i :: 0 <= i < |pool| ==> r.resetTime <= pool[i].resetTime
    ensures r == Merged(rs)
  {
    MergedMeaning(rs);
    hide Merged;
    var i :| 0 <= i < |pool| && pool[i].resetTime == r.resetTime;
    assert pool[i] in rs;
    if AnyBlocked(rs) {
      var j :| 0 <= j < |rs| && Blocks(rs[j]);
      assert rs[j].isBlocked;
    }
    if r.isBlocked {
      var j :| 0 <= j < |rs| && rs[j] == pool[0];
      assert Blocks(rs[j]);
    }
  }

  class ComposedStore {
    const mode: Mode
    const layers: seq<LayerSpec>
    const rollbackOnBlock: bool
    var stacks: map<Key, seq<seq<nat>>>

    ghost function Stores(): (s: set<MemoryStore>) {
      set i | 0 <= i < |layers| :: layers[i].store
    }

    ghost predicate FrameOk(frame: seq<nat>) {
      match mode
      case AllMode => frame == Indices(|layers|)
      case OverflowMode => |frame| == 1 && frame[0] < 2
    }

    ghost predicate FramesOk()
      reads this
    {
      && (forall k :: k in stacks ==> stacks[k] != [])
      && (forall k :: k in stacks ==> forall i :: 0 <= i < |stacks[k]| ==> FrameOk(stacks[k][i]))
    }

    /** Distinct, well-formed stores; two of them in overflow mode. */
    ghost predicate LayersOk()
      reads Stores()
    {
      && |layers| >= 1 && (mode.OverflowMode? ==> |layers| == 2)
      && (forall i, j :: 0 <= i < j < |layers| ==> layers[i].store != layers[j].store)
      && (forall i :: 0 <= i < |layers| ==> layers[i].store.Valid())
    }

    ghost predicate Valid()
      reads this, Stores()
    {
      LayersOk() && FramesOk()
    }

    ghost function Mems(): (mems: seq<Mem>)
      reads Stores()
      ensures |mems| == |layers| && forall i :: 0 <= i < |layers| ==> mems[i] == layers[i].store.View()
    {
      seq(|layers|, i requires 0 <= i < |layers| reads Stores() => layers[i].store.View())
    }

    lemma MemsOk()
      requires LayersOk()
      ensures OkMems(layers, Mems())
    {
    }

    /** The composition as a value, in mode `all`. */
    ghost function View(): (s: Store)
      requires Valid()
      reads this, Stores()
      ensures Good(s)
    {
      MemsOk();
      TreeGood(layers, Mems());
      All(Tree(layers, Mems()), rollbackOnBlock, Depths(stacks))
    }

    constructor (mode: Mode, layers: seq<LayerSpec>, rollbackOnBlock: bool)
      requires |layers| >= 1 && (mode.OverflowMode? ==> |layers| == 2)
      requires forall i, j :: 0 <= i < j < |layers| ==> layers[i].store != layers[j].store
      requires forall i :: 0 <= i < |layers| ==> layers[i].store.Valid()
      ensures Valid() && stacks == map[]
      ensures this.mode == mode && this.layers == layers && this.rollbackOnBlock == rollbackOnBlock
    {
      this.mode, this.layers, this.rollbackOnBlock, this.stacks := mode, layers, rollbackOnBlock, map[];
    }

    method PushFrame(k: Key, frame: seq<nat>)
      requires FramesOk() && FrameOk(frame)
      modifies this
      ensures FramesOk() && stacks == old(stacks)[k := (if k in old(stacks) then old(stacks)[k] else []) + [frame]]
    {
      var s := if k in stacks then stacks[k] else [];
      stacks := stacks[k := s + [frame]];
    }

    method PopFrame(k: Key) returns (frame: Option<seq<nat>>)
      requires FramesOk()
      modifies this
      ensures FramesOk() && (frame.None? <==> k !in old(stacks))
      ensures frame.None? ==> stacks == old(stacks)
      ensures frame.Some? ==>
                var s := old(stacks)[k];
                && FrameOk(frame.value) && frame.value == s[|s| - 1]
                && stacks == if |s| == 1 then old(stacks) - {k} else old(stacks)[k := s[..|s| - 1]]
    {
      if k !in stacks {
        return None;
      }
      var s := stacks[k];
      frame := Some(s[|s| - 1]);
      stacks := if |s| == 1 then stacks - {k} else stacks[k := s[..|s| - 1]];
    }

    /** Charge every layer. */
    method ChargeLayers(k: Key, cap: Option<int>, cost: int, now: int) returns (rs: seq<Result>)
      requires LayersOk()
      modifies Stores()
      ensures LayersOk() && |rs| == |layers|
      ensures forall i :: 0 <= i < |layers| ==>
              ChargedAt(layers[i], old(Mems())[i], Mems()[i], rs[i], k, cap, CostOf(cost), now)
    {
      hide Ok, IncrementKey;
      ghost var before := Mems();
      rs := [];
      var i := 0;
      while i < |layers|
        invariant 0 <= i <= |layers| && LayersOk() && |rs| == i
        invariant forall j :: 0 <= j < i ==>
                  ChargedAt(layers[j], before[j], layers[j].store.View(), rs[j], k, cap, CostOf(cost), now)
        invariant forall j :: i <= j < |layers| ==> layers[j].store.View() == before[j]
      {
        var r := layers[i].store.Increment(layers[i].rename(k), CapOf(layers[i].cap, cap), cost, now);
        rs := rs + [r];
        i := i + 1;
      }
    }

    /** Give back from one layer. */
    method GiveBack(i: nat, k: Key, cost: int, removeNewest: bool)
      requires LayersOk() && i < |layers|
      modifies layers[i].store
      ensures LayersOk()
      ensures GivenBackAt(layers[i], old(layers[i].store.View()), layers[i].store.View(), true, k, CostOf(cost),
                removeNewest)
    {
      hide Ok, DecrementKey;
      OkEntry(layers[i].store.lim, layers[i].store.View(), layers[i].rename(k));
      layers[i].store.Decrement(layers[i].rename(k), cost, removeNewest);
    }

    lemma Kept(i: nat, k: Key, n: Cost, removeNewest: bool)
      requires LayersOk() && i < |layers|
      ensures var m := layers[i].store.View(); GivenBackAt(layers[i], m, m, false, k, n, removeNewest)
    {
      hide Ok, DecrementKey;
      OkEntry(layers[i].store.lim, layers[i].store.View(), layers[i].rename(k));
    }

    /** Give back from the layers that let the request through. */
    method RollbackLayers(rs: seq<Result>, k: Key, cost: int)
      requires LayersOk() && |rs| == |layers|
      modifies Stores()
      ensures LayersOk()
      ensures forall i :: 0 <= i < |layers| ==>
              GivenBackAt(layers[i], old(Mems())[i], Mems()[i], !rs[i].isBlocked, k, CostOf(cost), true)
    {
      hide Ok, GivenBackAt;
      ghost var before := Mems();
      var i := 0;
      while i < |layers|
        invariant 0 <= i <= |layers| && LayersOk()
        invariant forall j :: 0 <= j < i ==>
                  GivenBackAt(layers[j], before[j], layers[j].store.View(), !rs[j].isBlocked, k, CostOf(cost), true)
        invariant forall j :: i <= j < |layers| ==> layers[j].store.View() == before[j]
      {
        if rs[i].isBlocked {
          Kept(i, k, CostOf(cost), true);
        } else {
          GiveBack(i, k, cost, true);
        }
        i := i + 1;
      }
    }

    /** Both loops, seen from the tree of layers. */
    method ChargeTree(k: Key, cap: Option<int>, cost: int, now: int) returns (rs: seq<Result>)
      requires Valid()
      modifies Stores()
      ensures Valid() && old(GoodTree()) && GoodTree() && |rs| == |layers| && rs != []
      ensures IncrementedLayers(old(Tree(layers, Mems())), k, cap, CostOf(cost), now) == (Tree(layers, Mems()), rs)
    {
      hide IncrementedLayers, Ok, IncrementKey, FrameOk;
      MemsOk();
      ghost var before := Mems();
      rs := ChargeLayers(k, cap, cost, now);
      TreeCharged(layers, before, Mems(), rs, k, cap, CostOf(cost), now);
      MemsOk();
      TreeGood(layers, Mems());
    }

    method RollbackTree(rs: seq<Result>, k: Key, cost: int)
      requires Valid() && |rs| == |layers|
      modifies Stores()
      ensures Valid() && old(GoodTree()) && GoodTree() && |rs| == old(Count(Tree(layers, Mems())))
      ensures RolledBack(old(Tree(layers, Mems())), rs, k, CostOf(cost)) == Tree(layers, Mems())
    {
      hide RolledBack, Ok, DecrementKey, FrameOk;
      MemsOk();
      ghost var before := Mems();
      RollbackLayers(rs, k, cost);
      TreeRolledBack(layers, before, Mems(), rs, k, CostOf(cost));
      MemsOk();
      TreeGood(layers, Mems());
    }

    ghost predicate GoodTree()
      reads Stores()
    {
      GoodLayers(Tree(layers, Mems()))
    }

    method IncrementAll(k: Key, cap: Option<int>, cost: int, now: int) returns (r: Result)
      requires Valid() && mode.AllMode?
      modifies this, Stores()
      ensures Valid() && (View(), r) == Incremented(old(View()), k, cap, CostOf(cost), now)
    {
      hide LayersOk, Tree, IncrementedLayers, RolledBack, Merged, FramesOk, Good, GoodLayers, Depths, Push;
      var rs := ChargeTree(k, cap, cost, now);
      if AnyBlocked(rs) {
        if rollbackOnBlock {
          RollbackTree(rs, k, cost);
        }
      } else {
        PushFrame(k, Indices(|layers|));
        DepthsPush(old(stacks), k, Indices(|layers|));
      }
      r := MergeResults(rs);
    }

    /** Give back from the layers of a frame, in order. */
    method DecrementLayers(frame: seq<nat>, k: Key, cost: int, removeNewest: bool)
      requires LayersOk() && frame == Indices(|layers|)
      modifies Stores()
      ensures LayersOk()
      ensures forall i :: 0 <= i < |layers| ==>
              GivenBackAt(layers[i], old(Mems())[i], Mems()[i], true, k, CostOf(cost), removeNewest)
    {
      hide Ok, GivenBackAt;
      ghost var before := Mems();
      var i := 0;
      while i < |frame|
        invariant 0 <= i <= |frame| && LayersOk()
        invariant forall j :: 0 <= j < i ==>
                  GivenBackAt(layers[j], before[j], layers[j].store.View(), true, k, CostOf(cost), removeNewest)
        invariant forall j :: i <= j < |layers| ==> layers[j].store.View() == before[j]
      {
        GiveBack(frame[i], k, cost, removeNewest);
        i := i + 1;
      }
    }

    method DecrementTree(frame: seq<nat>, k: Key, cost: int, removeNewest: bool)
      requires Valid() && frame == Indices(|layers|)
      modifies Stores()
      ensures Valid() && old(GoodTree()) && GoodTree()
      ensures DecrementedLayers(old(Tree(layers, Mems())), k, CostOf(cost), removeNewest) == Tree(layers, Mems())
    {
      hide DecrementedLayers, Ok, DecrementKey, FrameOk;
      MemsOk();
      ghost var before := Mems();
      DecrementLayers(frame, k, cost, removeNewest);
      TreeDecremented(layers, before, Mems(), k, CostOf(cost), removeNewest);
      MemsOk();
      TreeGood(layers, Mems());
    }

    method DecrementAll(k: Key, cost: int, removeNewest: bool)
      requires Valid() && mode.AllMode?
      modifies this, Stores()
      ensures Valid() && View() == Decremented(old(View()), k, CostOf(cost), removeNewest)
    {
      hide LayersOk, Tree, DecrementedLayers, Good, GoodLayers, Pop;
      var frame := PopFrame(k);
      if frame.Some? {
        DepthsPop(old(stacks), k);
        DecrementTree(frame.value, k, cost, removeNewest);
      }
    }

    // ----- mode `overflow` ------------------------------------------------------------------

    ghost function Setup(): (cfg: Overflow.Setup)
      requires |layers| == 2
    {
      Overflow.Setup(layers[0].store.lim, layers[1].store.lim, layers[0].rename, layers[1].rename, layers[0].cap,
        layers[1].cap)
    }

    ghost function PairView(): (s: Overflow.Pair)
      requires Valid() && mode.OverflowMode?
      reads this, Stores()
    {
      Overflow.Pair(layers[0].store.View(), layers[1].store.View(), NamedAll(stacks))
    }

    lemma PairOk()
      requires Valid() && mode.OverflowMode?
      ensures Overflow.OkPair(Setup(), PairView())
    {
      hide Ok;
      assert forall k :: k in stacks ==> Named(stacks[k]) != [];
    }

    method IncrementOverflow(k: Key, cap: Option<int>, cost: int, now: int) returns (r: Result)
      requires Valid() && mode.OverflowMode?
      modifies this, Stores()
      ensures Valid() && Overflow.OkPair(Setup(), old(PairView()))
      ensures (PairView(), r) == Overflow.Called(Setup(), old(PairView()), k, cap, CostOf(cost), now)
    {
      hide Ok, IncrementKey, NamedAll, Overflow.PushFrame;
      PairOk();
      NamedPush(stacks, k, 0);
      NamedPush(stacks, k, 1);
      var primary, burst := layers[0], layers[1];
      var pr := primary.store.Increment(primary.rename(k), CapOf(primary.cap, cap), cost, now);
      if !pr.isBlocked {
        PushFrame(k, [0]);
        return pr;
      }
      var br := burst.store.Increment(burst.rename(k), CapOf(burst.cap, cap), cost, now);
      if !br.isBlocked {
        PushFrame(k, [1]);
        return Result(pr.totalHits, br.remaining, Min(pr.resetTime, br.resetTime), false);
      }
      return Result(Max(pr.totalHits, br.totalHits), 0, Min(pr.resetTime, br.resetTime), true);
    }

    method DecrementOverflow(k: Key, cost: int, removeNewest: bool)
      requires Valid() && mode.OverflowMode?
      modifies this, Stores()
      ensures Valid() && Overflow.OkPair(Setup(), old(PairView()))
      ensures PairView() == Overflow.Returned(Setup(), old(PairView()), k, CostOf(cost), removeNewest)
    {
      hide Ok, DecrementKey, Overflow.PopFrame;
      PairOk();
      var frame := PopFrame(k);
      if frame.Some? {
        NamedPop(old(stacks), k);
        var layer := layers[frame.value[0]];
        layer.store.Decrement(layer.rename(k), cost, removeNewest);
      }
    }
  }
}
