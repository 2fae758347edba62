/**
 Grouped windows of the engine: one request is charged to several window stores in turn, the
 first that blocks stops it, and what was charged before is given back. What each slot is left
 with, for every mix of blocking, failing and unavailable slots.
 */
module GroupedWindows {
  import opened Entries
  import opened EntryLaws
  import opened MemoryTable
  import opened Composition

  /** A slot's store works, answers for itself that it is unavailable, or throws. */
  datatype Fault = Up | Down(reply: Result) | Throws

  datatype Slot = Slot(lim: Limits, cap: int, fault: Fault)

  datatype Seen = Seen(result: Result, unavailable: bool)

  datatype Request = Request(key: Key, n: Cost, now: int, draft: bool)

  ghost predicate GroupOk(slots: seq<Slot>, mems: seq<Mem>) {
    |slots| == |mems| && slots != [] && forall i :: 0 <= i < |slots| ==> Ok(slots[i].lim, mems[i])
  }

  // ----- one slot ---------------------------------------------------------------------------

  /** Only a working store is charged. */
  ghost function Charged(slot: Slot, m: Mem, req: Request): (r: Mem)
    requires Ok(slot.lim, m)
    ensures Ok(slot.lim, r)
  {
    IncrementKeyOk(slot.lim, m, req.key, Some(slot.cap), req.n, req.now);
    if slot.fault.Up? then IncrementKey(slot.lim, m, req.key, Some(slot.cap), req.n, req.now).0 else m
  }

  ghost function Answer(slot: Slot, m: Mem, req: Request): (r: Seen)
    requires Ok(slot.lim, m) && !slot.fault.Throws?
  {
    match slot.fault
    case Up => Seen(IncrementKey(slot.lim, m, req.key, Some(slot.cap), req.n, req.now).1, false)
    case Down(reply) => Seen(reply, true)
  }

  ghost function GivenBack(slot: Slot, m: Mem, req: Request): (r: Mem)
    requires Ok(slot.lim, m)
    ensures Ok(slot.lim, r)
  {
    OkEntry(slot.lim, m, req.key);
    DecrementKeyOk(slot.lim, m, req.key, req.n, false);
    if slot.fault.Up? then DecrementKey(slot.lim, m, req.key, req.n, false) else m
  }

  /** The slot lets the next one be asked. */
  ghost predicate Passes(slot: Slot, m: Mem, req: Request)
    requires Ok(slot.lim, m)
  {
    !slot.fault.Throws? && !Answer(slot, m, req).result.isBlocked
  }

  // ----- merging --------------------------------------------------------------------------------

  /** The first answer of an unavailable store, if any. */
  function FirstUnavailable(done: seq<Seen>): (i: nat)
    ensures i <= |done| && (i < |done| ==> done[i].unavailable)
    ensures forall j :: 0 <= j < i ==> !done[j].unavailable
  {
    if done == [] || done[0].unavailable then 0 else 1 + FirstUnavailable(done[1..])
  }

  function FirstBlocked(done: seq<Seen>): (i: nat)
    ensures i <= |done| && (i < |done| ==> done[i].result.isBlocked)
    ensures forall j :: 0 <= j < i ==> !done[j].result.isBlocked
  {
    if done == [] || done[0].result.isBlocked then 0 else 1 + FirstBlocked(done[1..])
  }

  function MostHits(done: seq<Seen>): (x: int) {
    if done == [] then 0 else Max(MostHits(done[..|done| - 1]), done[|done| - 1].result.totalHits)
  }

  function LatestReset(done: seq<Seen>): (x: int) {
    if done == [] then 0 else Max(LatestReset(done[..|done| - 1]), done[|done| - 1].result.resetTime)
  }

  function LeastRemaining(done: seq<Seen>): (x: int)
    requires done != []
  {
    if |done| == 1 then done[0].result.remaining
    else Min(LeastRemaining(done[..|done| - 1]), done[|done| - 1].result.remaining)
  }

  function Merged(done: seq<Seen>): (r: Seen)
    requires done != []
  {
    var (down, blocked) := (FirstUnavailable(done), FirstBlocked(done));
    if down < |done| then done[down]
    else if blocked < |done| then Seen(done[blocked].result.(remaining := 0, isBlocked := true), false)
    else Seen(Result(MostHits(done), LeastRemaining(done), LatestReset(done), false), false)
  }

  /** `x` is the largest of the figures, or 0 if they are all below. */
  ghost predicate LargestOrZero(figures: seq<int>, x: int) {
    x >= 0 && (forall i :: 0 <= i < |figures| ==> figures[i] <= x) && (x == 0 || x in figures)
  }

  ghost predicate Smallest(figures: seq<int>, x: int) {
    (forall i :: 0 <= i < |figures| ==> x <= figures[i]) && x in figures
  }

  ghost function Hits(done: seq<Seen>): (xs: seq<int>) {
    seq(|done|, i requires 0 <= i < |done| => done[i].result.totalHits)
  }

  ghost function Resets(done: seq<Seen>): (xs: seq<int>) {
    seq(|done|, i requires 0 <= i < |done| => done[i].result.resetTime)
  }

  ghost function Remainings(done: seq<Seen>): (xs: seq<int>) {
    seq(|done|, i requires 0 <= i < |done| => done[i].result.remaining)
  }

  lemma {:induction false} FoldsMean(done: seq<Seen>)
    ensures LargestOrZero(Hits(done), MostHits(done)) && LargestOrZero(Resets(done), LatestReset(done))
    ensures done != [] ==> Smallest(Remainings(done), LeastRemaining(done))
  {
    if done != [] {
      var init, x := done[..|done| - 1], done[|done| - 1].result;
      FoldsMean(init);
      assert Hits(done) == Hits(init) + [x.totalHits];
      assert Resets(done) == Resets(init) + [x.resetTime];
      assert Remainings(done) == Remainings(init) + [x.remaining];
    }
  }

  ghost predicate FirstDown(done: seq<Seen>, i: nat) {
    i < |done| && done[i].unavailable && forall j :: 0 <= j < i ==> !done[j].unavailable
  }

  ghost predicate FirstBlock(done: seq<Seen>, i: nat) {
    i < |done| && done[i].result.isBlocked && forall j :: 0 <= j < i ==> !done[j].result.isBlocked
  }

  /**
   What the merged result means: the first answer of an unavailable store as it is; else the first block, with nothing
   remaining; else the least remaining quota, the most hits and the latest reset.
   */
  lemma MergedMeaning(done: seq<Seen>)
    requires done != []
    ensures var r := Merged(done);
            && (forall i: nat :: FirstDown(done, i) ==> r == done[i])
            && (r.unavailable <==> exists i: nat :: FirstDown(done, i))
            && (!r.unavailable ==>
                  && (forall i: nat :: FirstBlock(done, i) ==> r.result == done[i].result.(remaining := 0))
                  && (r.result.isBlocked <==> exists i: nat :: FirstBlock(done, i)))
            && (!r.unavailable && !r.result.isBlocked ==>
                  && Smallest(Remainings(done), r.result.remaining)
                  && LargestOrZero(Hits(done), r.result.totalHits) && LargestOrZero(Resets(done), r.result.resetTime))
  {
    FoldsMean(done);
    var (down, blocked) := (FirstUnavailable(done), FirstBlocked(done));
    assert down < |done| ==> FirstDown(done, down);
    assert blocked < |done| ==> FirstBlock(done, blocked);
    hide MostHits, LatestReset, LeastRemaining, FirstUnavailable, FirstBlocked, LargestOrZero, Smallest;
  }

  /** The merge, in the source's passes. */
  method MergeGroupedResults(done: seq<Seen>) returns (r: Seen)
    requires done != []
    ensures r == Merged(done)
  {
    var i := 0;
    while i < |done| && !done[i].unavailable
      invariant 0 <= i <= |done| && forall j :: 0 <= j < i ==> !done[j].unavailable
    {
      i := i + 1;
    }
    if i < |done| {
      return done[i];
    }
    var b := 0;
    while b < |done| && !done[b].result.isBlocked
      invariant 0 <= b <= |done| && forall j :: 0 <= j < b ==> !done[j].result.isBlocked
    {
      b := b + 1;
    }
    if b < |done| {
      return Seen(Result(done[b].result.totalHits, 0, done[b].result.resetTime, true), false);
    }
    var remaining, hits, reset := done[0].result.remaining, 0, 0;
    var j := 0;
    while j < |done|
      invariant 0 <= j <= |done| && hits == MostHits(done[..j]) && reset == LatestReset(done[..j])
      invariant remaining == if j == 0 then done[0].result.remaining else LeastRemaining(done[..j])
    {
      assert done[..j + 1][..j] == done[..j];
      var x := done[j].result;
      remaining := if x.remaining < remaining then x.remaining else remaining;
      hits, reset := Max(hits, x.totalHits), Max(reset, x.resetTime);
      j := j + 1;
    }
    assert done[..j] == done;
    return Seen(Result(hits, remaining, reset, false), false);
  }

  /** The blocked slots in order. */
  method BlockedSlots(done: seq<Seen>) returns (blocked: seq<nat>)
    ensures forall k :: 0 <= k < |blocked| ==> blocked[k] < |done| && done[blocked[k]].result.isBlocked
    ensures forall i :: 0 <= i < |done| && done[i].result.isBlocked ==> i in blocked
  {
    blocked := [];
    var i := 0;
    while i < |done|
      invariant 0 <= i <= |done|
      invariant forall k :: 0 <= k < |blocked| ==> blocked[k] < i && done[blocked[k]].result.isBlocked
      invariant forall x :: 0 <= x < i && done[x].result.isBlocked ==> x in blocked
    {
      if done[i].result.isBlocked {
        blocked := blocked + [i];
      }
      i := i + 1;
    }
  }

  /** `best` is a blocked slot with the latest reset, the first of those. */
  ghost predicate LatestBlocked(done: seq<Seen>, best: nat) {
    && best < |done| && done[best].result.isBlocked
    && forall i :: 0 <= i < |done| && done[i].result.isBlocked ==>
         done[i].result.resetTime < done[best].result.resetTime
           || (done[i].result.resetTime == done[best].result.resetTime && best <= i)
  }

  /** `best` is the first slot with the least remaining quota. */
  ghost predicate Tightest(done: seq<Seen>, best: nat) {
    && best < |done|
    && forall i :: 0 <= i < |done| ==>
         done[best].result.remaining < done[i].result.remaining
           || (done[best].result.remaining == done[i].result.remaining && best <= i)
  }

  /** An available verdict has the binding slot's figures: all of them but `remaining` when blocked, else that one. */
  ghost predicate ReportsBinding(done: seq<Seen>, verdict: Seen, binding: nat) {
    && binding < |done|
    && (!verdict.unavailable ==>
          if verdict.result.isBlocked then verdict.result == done[binding].result.(remaining := 0)
          else verdict.result.remaining == done[binding].result.remaining)
  }

  lemma TightestReported(done: seq<Seen>, best: nat)
    requires done != [] && Tightest(done, best) && !Merged(done).result.isBlocked
    ensures ReportsBinding(done, Merged(done), best)
  {
    MergedMeaning(done);
    hide Merged;
    var r := Merged(done);
    if !r.unavailable {
      assert Remainings(done)[best] == done[best].result.remaining;
      var i :| 0 <= i < |done| && Remainings(done)[i] == r.result.remaining;
      assert done[i].result.remaining == r.result.remaining;
    }
  }

  /** A block at the last slot is the only one, so it is the one that is reported. */
  lemma LastReported(done: seq<Seen>)
    requires done != [] && done[|done| - 1].result.isBlocked
    requires forall j :: 0 <= j < |done| - 1 ==> !done[j].result.isBlocked
    ensures ReportsBinding(done, Merged(done), |done| - 1)
  {
    MergedMeaning(done);
    assert FirstBlock(done, |done| - 1);
    hide Merged;
  }

  /** The slot that binds: the blocked one with the latest reset, else the least-index minimum of remaining. */
  method ComputeBindingSlotIndex(done: seq<Seen>) returns (r: Option<nat>)
    ensures r.None? <==> done == []
    ensures r.Some? ==>
            if exists i :: 0 <= i < |done| && done[i].result.isBlocked then LatestBlocked(done, r.value)
            else Tightest(done, r.value)
  {
    if done == [] {
      return None;
    }
    var blocked := BlockedSlots(done);
    if |blocked| > 0 {
      var best := blocked[0];
      var k := 1;
      while k < |blocked|
        invariant 1 <= k <= |blocked| && best in blocked[..k]
        invariant forall x :: x in blocked[..k] ==>
          done[x].result.resetTime < done[best].result.resetTime
            || (done[x].result.resetTime == done[best].result.resetTime && best <= x)
      {
        var idx := blocked[k];
        assert blocked[..k + 1] == blocked[..k] + [idx];
        if done[idx].result.resetTime > done[best].result.resetTime
           || (done[idx].result.resetTime == done[best].result.resetTime && idx < best) {
          best := idx;
        }
        k := k + 1;
      }
      assert blocked[..k] == blocked;
      return Some(best);
    }
    var best := 0;
    var i := 1;
    while i < |done|
      invariant 1 <= i <= |done| && 0 <= best < i
      invariant forall x :: 0 <= x < i ==>
        done[best].result.remaining < done[x].result.remaining
          || (done[best].result.remaining == done[x].result.remaining && best <= x)
    {
      var rem := done[i].result.remaining;
      if rem < done[best].result.remaining || (rem == done[best].result.remaining && i < best) {
        best := i;
      }
      i := i + 1;
    }
    return Some(best);
  }

  // ----- the whole consume -----------------------------------------------------------------------

  /** The first slot, from `i` on, that blocks or throws; all of them passing, the number of slots. */
  ghost function StopFrom(slots: seq<Slot>, mems: seq<Mem>, req: Request, i: nat): (r: nat)
    requires GroupOk(slots, mems) && i <= |slots|
    ensures i <= r <= |slots| && (r < |slots| ==> !Passes(slots[r], mems[r], req))
    ensures forall j :: i <= j < r ==> Passes(slots[j], mems[j], req)
    decreases |slots| - i
  {
    if i == |slots| || !Passes(slots[i], mems[i], req) then i else StopFrom(slots, mems, req, i + 1)
  }

  ghost function Stop(slots: seq<Slot>, mems: seq<Mem>, req: Request): (r: nat)
    requires GroupOk(slots, mems)
    ensures r <= |slots| && (r < |slots| ==> !Passes(slots[r], mems[r], req))
    ensures forall j :: 0 <= j < r ==> Passes(slots[j], mems[j], req)
  {
    StopFrom(slots, mems, req, 0)
  }

  /** How many slots answered. */
  ghost function Answered(slots: seq<Slot>, mems: seq<Mem>, req: Request): (n: nat)
    requires GroupOk(slots, mems)
    ensures n <= |slots| && forall j :: 0 <= j < n ==> !slots[j].fault.Throws?
  {
    var stop := Stop(slots, mems, req);
    if stop < |slots| && !slots[stop].fault.Throws? then stop + 1 else stop
  }

  ghost function Answers(slots: seq<Slot>, mems: seq<Mem>, req: Request): (done: seq<Seen>)
    requires GroupOk(slots, mems)
    ensures |done| == Answered(slots, mems, req)
    ensures forall j :: 0 <= j < |done| ==> done[j] == Answer(slots[j], mems[j], req)
  {
    seq(Answered(slots, mems, req), j requires 0 <= j < Answered(slots, mems, req) => Answer(slots[j], mems[j], req))
  }

  /** What the caller gets: nothing when a slot threw. */
  ghost function Verdict(slots: seq<Slot>, mems: seq<Mem>, req: Request): (r: Option<Seen>)
    requires GroupOk(slots, mems)
  {
    var stop := Stop(slots, mems, req);
    if stop < |slots| && slots[stop].fault.Throws? then None
    else
      var done := Answers(slots, mems, req);
      if done == [] then None else Some(Merged(done))
  }

  /**
   Whether slot `j`'s charge is given back. In draft mode the rollback after a block is left to the caller,
   who looks at the merged result.
   */
  ghost predicate RolledBack(slots: seq<Slot>, mems: seq<Mem>, req: Request, j: nat)
    requires GroupOk(slots, mems)
  {
    var (stop, verdict) := (Stop(slots, mems, req), Verdict(slots, mems, req));
    if stop == |slots| then false
    else if req.draft && slots[stop].fault.Up? then
      j <= stop && verdict.Some? && verdict.value.result.isBlocked && !verdict.value.unavailable
    else j < stop
  }

  ghost function FinalAt(slots: seq<Slot>, mems: seq<Mem>, req: Request, j: nat): (m: Mem)
    requires GroupOk(slots, mems) && j < |slots|
  {
    if j >= Answered(slots, mems, req) then mems[j]
    else if RolledBack(slots, mems, req, j) then GivenBack(slots[j], Charged(slots[j], mems[j], req), req)
    else Charged(slots[j], mems[j], req)
  }

  // ----- the verdict -------------------------------------------------------------------------------

  /** An unavailable store that lets requests through was asked before slot `i`. */
  ghost predicate DownBefore(slots: seq<Slot>, i: nat)
    requires i <= |slots|
  {
    exists j :: 0 <= j < i && slots[j].fault.Down?
  }

  /**
   The reported verdict is blocked exactly when a slot blocked and no unavailable slot had let the request through
   before it.
   */
  lemma VerdictIff(slots: seq<Slot>, mems: seq<Mem>, req: Request)
    requires GroupOk(slots, mems)
    ensures var (stop, v) := (Stop(slots, mems, req), Verdict(slots, mems, req));
            && (v.None? <==> stop < |slots| && slots[stop].fault.Throws?)
            && (v.Some? ==> (v.value.result.isBlocked <==> stop < |slots| && !DownBefore(slots, stop)))
            && (v.Some? && v.value.unavailable ==>
                  DownBefore(slots, stop) || (stop < |slots| && slots[stop].fault.Down?))
            && (v.Some? && DownBefore(slots, stop) ==> v.value.unavailable)
  {
    hide Ok, IncrementKey, StopFrom;
    var stop := Stop(slots, mems, req);
    if stop < |slots| && slots[stop].fault.Throws? {
    } else {
      var done := Answers(slots, mems, req);
      var down := FirstUnavailable(done);
      hide FirstUnavailable, FirstBlocked, MostHits, LatestReset, LeastRemaining;
      if down < |done| && down < stop {
        assert Passes(slots[down], mems[down], req);
        assert slots[down].fault.Down?;
      }
    }
  }

  lemma StopAt(slots: seq<Slot>, mems: seq<Mem>, req: Request, i: nat)
    requires GroupOk(slots, mems) && i < |slots| && !Passes(slots[i], mems[i], req)
    requires forall j :: 0 <= j < i ==> Passes(slots[j], mems[j], req)
    ensures Stop(slots, mems, req) == i
  {
    hide Ok, IncrementKey, StopFrom;
  }

  /**
   A store that is down and lets requests through, then one that blocks: the caller is told that the request is
   allowed.
   */
  lemma HiddenBlock(down: Slot, full: Slot, m: Mem, req: Request)
    requires down.fault.Down? && !down.fault.reply.isBlocked && full.fault.Up? && Ok(down.lim, EMPTY) && Ok(full.lim, m)
    requires Answer(full, m, req).result.isBlocked
    ensures var (slots, mems) := ([down, full], [EMPTY, m]);
            && GroupOk(slots, mems) && Stop(slots, mems, req) == 1
            && Verdict(slots, mems, req) == Some(Seen(down.fault.reply, true))
            && FinalAt(slots, mems, req, 1) == Charged(full, m, req)
  {
    hide Ok, IncrementKey, StopFrom;
    var (slots, mems) := ([down, full], [EMPTY, m]);
    StopAt(slots, mems, req, 1);
    VerdictIff(slots, mems, req);
    assert Answers(slots, mems, req)[0] == Seen(down.fault.reply, true);
  }

  /** For instance: a store that is down and a full store of one request per second. */
  lemma BlockReadsAsAllowed(k: Key)
    ensures var open := Result(0, 1, 2000, false);
            var slots := [Slot(Limits(FixedWindow(1000, 1), 0), 1, Down(open)),
              Slot(Limits(FixedWindow(1000, 1), 0), 1, Up)];
            var mems := [EMPTY, Mem([k], map[k := Fixed(1, 1000)], [])];
            var req := Request(k, 1, 500, false);
            && GroupOk(slots, mems) && Stop(slots, mems, req) == 1 && Answer(slots[1], mems[1], req).result.isBlocked
            && Verdict(slots, mems, req) == Some(Seen(open, true)) && !open.isBlocked
  {
    var lim := Limits(FixedWindow(1000, 1), 0);
    var m := Mem([k], map[k := Fixed(1, 1000)], []);
    assert m.order[1..] == [] && Distinct([]);
    var req := Request(k, 1, 500, false);
    var full := Slot(lim, 1, Up);
    assert Ok(lim, m) && Ok(lim, EMPTY);
    hide Ok;
    assert Answer(full, m, req).result.isBlocked;
    HiddenBlock(Slot(lim, 1, Down(Result(0, 1, 2000, false))), full, m, req);
  }
}
