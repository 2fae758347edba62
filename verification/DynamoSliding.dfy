/**
 Sliding increments on one shared DynamoDB item: any number of workers, each with its own
 clock, interleaved at single conditional writes. What the two counters mean in every
 interleaving, and which workers can fail to commit.
 */
module DynamoSliding {
  import opened Entries
  import opened SlidingWeighted
  import opened EntryLaws

  const MAX_ATTEMPTS := 24

  /** The three conditional writes of an attempt, in order. */
  datatype Stage = AddToCurrent | RollFromPrevious | StartFresh

  /** One conditional write: the new item, or none if its condition fails. */
  function TryWrite(item: Option<Weighted>, stage: Stage, b: int, w: int, cost: Cost): (r: Option<Weighted>) {
    match stage
    case AddToCurrent =>
      if item.Some? && item.value.currentWindowStart == b
      then Some(item.value.(currentCount := item.value.currentCount + cost)) else None
    case RollFromPrevious =>
      if item.Some? && item.value.currentWindowStart == b - w
      then Some(Weighted(b, cost, item.value.currentCount)) else None
    case StartFresh =>
      if item.None? || item.value.currentWindowStart < b then Some(Weighted(b, cost, 0)) else None
  }

  // ----- the interleaving ------------------------------------------------------------

  datatype Worker =
    | Busy(boundary: int, cost: Cost, attempt: nat, stage: Stage)
    | Committed(boundary: int, cost: Cost, seen: Weighted)
    | Failed(boundary: int, cost: Cost)

  datatype Commit = Commit(boundary: int, cost: Cost)

  datatype Sys = Sys(item: Option<Weighted>, workers: map<nat, Worker>, commits: seq<Commit>)

  datatype Event =
    | Begin(id: nat, now: int, cost: Cost)
    | WriteNext(id: nat)

  function NextStage(k: Worker): (r: Worker)
    requires k.Busy?
  {
    match k.stage
    case AddToCurrent => k.(stage := RollFromPrevious)
    case RollFromPrevious => k.(stage := StartFresh)
    case StartFresh =>
      if k.attempt + 1 < MAX_ATTEMPTS then k.(attempt := k.attempt + 1, stage := AddToCurrent)
      else Failed(k.boundary, k.cost)
  }

  predicate Enabled(s: Sys, ev: Event) {
    match ev
    case Begin(id, _, _) => id !in s.workers
    case WriteNext(id) => id in s.workers && s.workers[id].Busy?
  }

  /** Each worker reads its own clock; a write is atomic. */
  function Step(s: Sys, w: int, ev: Event): (r: Sys)
    requires w >= 1 && Enabled(s, ev)
  {
    match ev
    case Begin(id, now, cost) => s.(workers := s.workers[id := Busy(Boundary(now, w), cost, 0, AddToCurrent)])
    case WriteNext(id) =>
      var k := s.workers[id];
      var written := TryWrite(s.item, k.stage, k.boundary, w, k.cost);
      if written.Some? then
        Sys(written, s.workers[id := Committed(k.boundary, k.cost, written.value)],
          s.commits + [Commit(k.boundary, k.cost)])
      else s.(workers := s.workers[id := NextStage(k)])
  }

  function Exec(w: int, evs: seq<Event>): (s: Sys)
    requires w >= 1
  {
    if evs == [] then Sys(None, map[], [])
    else
      var prev := Exec(w, evs[..|evs| - 1]);
      if Enabled(prev, evs[|evs| - 1]) then Step(prev, w, evs[|evs| - 1]) else prev
  }

  // ----- what the counters mean --------------------------------------------------------

  function CommittedFor(commits: seq<Commit>, b: int): (n: nat) {
    if commits == [] then 0
    else
      var c := commits[|commits| - 1];
      CommittedFor(commits[..|commits| - 1], b) + if c.boundary == b then c.cost else 0
  }

  ghost predicate Upto(commits: seq<Commit>, b: int) {
    commits == [] || (commits[|commits| - 1].boundary <= b && Upto(commits[..|commits| - 1], b))
  }

  lemma {:induction false} UptoRaise(commits: seq<Commit>, b: int, c: int)
    requires Upto(commits, b) && b <= c
    ensures Upto(commits, c)
    ensures forall x :: x > b ==> CommittedFor(commits, x) == 0
  {
    if commits != [] {
      UptoRaise(commits[..|commits| - 1], b, c);
    }
  }

  /**
   The current counter is the cost committed for its boundary; the previous one is the cost
   committed for the boundary before it, or zero.
   */
  ghost predicate Meaning(s: Sys, w: int) {
    match s.item
    case None => s.commits == []
    case Some(it) =>
      && Upto(s.commits, it.currentWindowStart)
      && it.currentCount == CommittedFor(s.commits, it.currentWindowStart) && it.currentCount >= 1
      && (it.previousCount == 0 || it.previousCount == CommittedFor(s.commits, it.currentWindowStart - w))
  }

  lemma CommittedForSnoc(commits: seq<Commit>, c: Commit, b: int)
    ensures CommittedFor(commits + [c], b) == CommittedFor(commits, b) + if c.boundary == b then c.cost else 0
    ensures Upto(commits, b) && c.boundary <= b ==> Upto(commits + [c], b)
  {
    assert (commits + [c])[..|commits|] == commits;
  }

  lemma NothingUpto(b: int)
    ensures Upto([], b) && CommittedFor([], b) == 0
  {
  }

  lemma StepMeaning(s: Sys, w: int, ev: Event)
    requires w >= 1 && Enabled(s, ev) && Meaning(s, w)
    ensures Meaning(Step(s, w, ev), w)
    ensures s.item.Some? ==>
            Step(s, w, ev).item.Some? && s.item.value.currentWindowStart <= Step(s, w, ev).item.value.currentWindowStart
  {
    hide Boundary, Upto;
    if ev.WriteNext? {
      var k := s.workers[ev.id];
      var c := Commit(k.boundary, k.cost);
      CommittedForSnoc(s.commits, c, k.boundary);
      CommittedForSnoc(s.commits, c, k.boundary - w);
      NothingUpto(k.boundary);
      if s.item.Some? && s.item.value.currentWindowStart < k.boundary {
        UptoRaise(s.commits, s.item.value.currentWindowStart, k.boundary);
      }
    }
  }

  /** In every interleaving, with any clocks. */
  lemma {:induction false} CountersMeanCommits(w: int, evs: seq<Event>)
    requires w >= 1
    ensures Meaning(Exec(w, evs), w)
    ensures var s := Exec(w, evs);
            s.item.Some? ==> s.item.value.previousCount <= CommittedFor(s.commits, s.item.value.currentWindowStart - w)
  {
    if evs != [] {
      hide Step;
      CountersMeanCommits(w, evs[..|evs| - 1]);
      var prev := Exec(w, evs[..|evs| - 1]);
      if Enabled(prev, evs[|evs| - 1]) {
        StepMeaning(prev, w, evs[|evs| - 1]);
      }
    }
  }

  /** The window never goes back, over any stretch of a run. */
  lemma {:induction false} WindowNeverGoesBack(w: int, evs: seq<Event>, n: nat)
    requires w >= 1 && n <= |evs| && Exec(w, evs[..n]).item.Some?
    ensures Exec(w, evs).item.Some?
    ensures Exec(w, evs[..n]).item.value.currentWindowStart <= Exec(w, evs).item.value.currentWindowStart
  {
    if n == |evs| {
      assert evs[..n] == evs;
    } else {
      hide Step;
      var init := evs[..|evs| - 1];
      assert init[..n] == evs[..n];
      WindowNeverGoesBack(w, init, n);
      CountersMeanCommits(w, init);
      if Enabled(Exec(w, init), evs[|evs| - 1]) {
        StepMeaning(Exec(w, init), w, evs[|evs| - 1]);
      }
    }
  }

  ghost predicate OnSlice(x: int, w: int)
    requires w >= 1
  {
    Boundary(x, w) == x
  }

  /** Every boundary in sight is the start of a slice. */
  ghost predicate AllOnSlices(s: Sys, w: int)
    requires w >= 1
  {
    && (s.item.Some? ==> OnSlice(s.item.value.currentWindowStart, w))
    && forall id :: id in s.workers ==> OnSlice(s.workers[id].boundary, w)
  }

  lemma BoundaryOnSlice(now: int, w: int)
    requires w >= 1
    ensures OnSlice(Boundary(now, w), w)
  {
    DivUnique(now / w * w, w, now / w, 0);
  }

  lemma StepOnSlices(s: Sys, w: int, ev: Event)
    requires w >= 1 && Enabled(s, ev) && AllOnSlices(s, w)
    ensures AllOnSlices(Step(s, w, ev), w)
  {
    hide OnSlice, Boundary;
    if ev.Begin? {
      BoundaryOnSlice(ev.now, w);
    }
  }

  lemma {:induction false} RunOnSlices(w: int, evs: seq<Event>)
    requires w >= 1
    ensures AllOnSlices(Exec(w, evs), w)
  {
    if evs != [] {
      hide Step, OnSlice;
      RunOnSlices(w, evs[..|evs| - 1]);
      var prev := Exec(w, evs[..|evs| - 1]);
      if Enabled(prev, evs[|evs| - 1]) {
        StepOnSlices(prev, w, evs[|evs| - 1]);
      }
    }
  }

  /**
   Starting fresh forgets the previous slice: the new previous counter misses cost exactly when
   another worker moved the item into that slice since this attempt tried to roll from it.
   */
  lemma FreshStartExactIff(w: int, evs: seq<Event>, id: nat)
    requires w >= 1 && Enabled(Exec(w, evs), WriteNext(id)) && Exec(w, evs).workers[id].stage == StartFresh
    requires Step(Exec(w, evs), w, WriteNext(id)).workers[id].Committed?
    ensures var s := Exec(w, evs);
            var (r, b) := (Step(s, w, WriteNext(id)), s.workers[id].boundary);
            r.item.value.previousCount == CommittedFor(r.commits, b - w)
            <==> (s.item.None? || s.item.value.currentWindowStart != b - w)
  {
    hide Exec, Boundary;
    var s := Exec(w, evs);
    CountersMeanCommits(w, evs);
    RunOnSlices(w, evs);
    var k := s.workers[id];
    CommittedForSnoc(s.commits, Commit(k.boundary, k.cost), k.boundary - w);
    if s.item.Some? {
      UptoRaise(s.commits, s.item.value.currentWindowStart, s.item.value.currentWindowStart);
      BoundariesApart(s.item.value.currentWindowStart, k.boundary, w);
    }
  }

  lemma ExecSnoc(w: int, evs: seq<Event>, ev: Event)
    requires w >= 1
    ensures var s := Exec(w, evs); Enabled(s, ev) ==> Exec(w, evs + [ev]) == Step(s, w, ev)
  {
    assert (evs + [ev])[..|evs|] == evs;
  }

  /** Worker 0 finds no item to add to or to roll from. */
  lemma FirstTwoWritesFail() returns (evs: seq<Event>)
    ensures Exec(10, evs) == Sys(None, map[0 := Busy(10, 1, 0, StartFresh)], [])
  {
    evs := [];
    assert Exec(10, evs) == Sys(None, map[], []);
    hide Exec;
    ExecSnoc(10, evs, Begin(0, 10, 1));
    evs := evs + [Begin(0, 10, 1)];
    assert Exec(10, evs) == Sys(None, map[0 := Busy(10, 1, 0, AddToCurrent)], []);
    ExecSnoc(10, evs, WriteNext(0));
    evs := evs + [WriteNext(0)];
    ExecSnoc(10, evs, WriteNext(0));
    evs := evs + [WriteNext(0)];
  }

  /** Worker 1 then commits one unit to the slice before. */
  lemma OtherCommitsBefore() returns (evs: seq<Event>)
    ensures Exec(10, evs) ==
            Sys(Some(Weighted(0, 1, 0)),
                map[0 := Busy(10, 1, 0, StartFresh), 1 := Committed(0, 1, Weighted(0, 1, 0))], [Commit(0, 1)])
  {
    evs := FirstTwoWritesFail();
    hide Exec;
    ExecSnoc(10, evs, Begin(1, 0, 1));
    evs := evs + [Begin(1, 0, 1)];
    assert Exec(10, evs) == Sys(None, map[0 := Busy(10, 1, 0, StartFresh), 1 := Busy(0, 1, 0, AddToCurrent)], []);
    ExecSnoc(10, evs, WriteNext(1));
    evs := evs + [WriteNext(1)];
    ExecSnoc(10, evs, WriteNext(1));
    evs := evs + [WriteNext(1)];
    assert Exec(10, evs).workers == map[0 := Busy(10, 1, 0, StartFresh), 1 := Busy(0, 1, 0, StartFresh)];
    ExecSnoc(10, evs, WriteNext(1));
    evs := evs + [WriteNext(1)];
    assert [] + [Commit(0, 1)] == [Commit(0, 1)];
  }

  /** And worker 0 starts fresh: that unit is forgotten. */
  lemma FreshStartForgets() returns (evs: seq<Event>)
    ensures var s := Exec(10, evs);
            && Enabled(s, WriteNext(0)) && s.workers[0].stage == StartFresh && s.workers[0].boundary == 10
            && s.item == Some(Weighted(0, 1, 0))
    ensures var r := Step(Exec(10, evs), 10, WriteNext(0));
            r.item == Some(Weighted(10, 1, 0)) && CommittedFor(r.commits, 0) == 1
  {
    evs := OtherCommitsBefore();
    hide Exec, Boundary;
    CommittedForSnoc([], Commit(0, 1), 0);
    CommittedForSnoc([Commit(0, 1)], Commit(10, 1), 0);
    assert [] + [Commit(0, 1)] == [Commit(0, 1)];
  }

  // ----- who can fail ---------------------------------------------------------------------

  ghost predicate Overtaken(s: Sys, b: int) {
    s.item.Some? && s.item.value.currentWindowStart > b
  }

  /**
   A worker on its second attempt has seen its slice or a later one; past the second attempt's first write, a later
   one.
   */
  ghost predicate Progress(s: Sys, k: Worker) {
    match k
    case Busy(b, _, attempt, stage) =>
      && (attempt >= 1 ==> s.item.Some? && s.item.value.currentWindowStart >= b)
      && (attempt >= 2 || (attempt == 1 && stage != AddToCurrent) ==> Overtaken(s, b))
    case Committed(_, _, _) => true
    case Failed(b, _) => Overtaken(s, b)
  }

  ghost predicate AllProgress(s: Sys) {
    forall id :: id in s.workers ==> Progress(s, s.workers[id])
  }

  lemma StepProgress(s: Sys, w: int, ev: Event)
    requires w >= 1 && Enabled(s, ev) && Meaning(s, w) && AllProgress(s)
    ensures AllProgress(Step(s, w, ev))
  {
    hide Meaning, CommittedFor, Upto, Boundary;
    StepMeaning(s, w, ev);
    if ev.WriteNext? {
      WriterProgress(s, w, ev.id);
    }
    hide Step, TryWrite, NextStage;
    forall id | id in Step(s, w, ev).workers ensures Progress(Step(s, w, ev), Step(s, w, ev).workers[id]) {
      StepOthers(s, w, ev, id);
    }
  }

  lemma WriterProgress(s: Sys, w: int, id: nat)
    requires w >= 1 && Enabled(s, WriteNext(id)) && Progress(s, s.workers[id])
    ensures Progress(Step(s, w, WriteNext(id)), Step(s, w, WriteNext(id)).workers[id])
  {
    hide Boundary;
  }

  lemma StepOthers(s: Sys, w: int, ev: Event, id: nat)
    requires w >= 1 && Enabled(s, ev) && id in Step(s, w, ev).workers
    ensures id != ev.id ==> id in s.workers && Step(s, w, ev).workers[id] == s.workers[id]
    ensures ev.Begin? && id == ev.id ==> Step(s, w, ev).workers[id].Busy? && Step(s, w, ev).workers[id].attempt == 0
  {
    hide Boundary, TryWrite, NextStage;
  }

  /**
   No worker fails for contention alone: if it gives up, or even reaches its third attempt, the item
   has moved to a slice later than its own clock's. From then on it can never commit.
   */
  lemma {:induction false} OnlyOvertakenFail(w: int, evs: seq<Event>, id: nat)
    requires w >= 1 && id in Exec(w, evs).workers
    ensures var (s, k) := (Exec(w, evs), Exec(w, evs).workers[id]);
            k.Failed? || (k.Busy? && k.attempt >= 2) ==> Overtaken(s, k.boundary)
  {
    RunProgress(w, evs);
  }

  lemma {:induction false} RunProgress(w: int, evs: seq<Event>)
    requires w >= 1
    ensures AllProgress(Exec(w, evs))
  {
    if evs != [] {
      hide Step;
      RunProgress(w, evs[..|evs| - 1]);
      CountersMeanCommits(w, evs[..|evs| - 1]);
      var prev := Exec(w, evs[..|evs| - 1]);
      if Enabled(prev, evs[|evs| - 1]) {
        StepProgress(prev, w, evs[|evs| - 1]);
      }
    }
  }

  /** An overtaken worker's writes all fail. */
  lemma OvertakenNeverCommits(s: Sys, w: int, id: nat)
    requires w >= 1 && Enabled(s, WriteNext(id)) && Overtaken(s, s.workers[id].boundary)
    ensures Step(s, w, WriteNext(id)).item == s.item && Step(s, w, WriteNext(id)).commits == s.commits
  {
  }

  /** The first of a worker's next writes that goes through commits; the others are lost. */
  lemma NextWrite(w: int, evs: seq<Event>, id: nat)
    requires w >= 1 && id in Exec(w, evs).workers && Exec(w, evs).workers[id].Busy?
    ensures var (s, r) := (Exec(w, evs), Exec(w, evs + [WriteNext(id)]));
            var k := s.workers[id];
            var written := TryWrite(s.item, k.stage, k.boundary, w, k.cost);
            && id in r.workers
            && (written.Some? ==>
                  && r.workers[id].Committed? && r.item == written
                  && r.commits == s.commits + [Commit(k.boundary, k.cost)])
            && (written.None? ==> r == s.(workers := s.workers[id := NextStage(k)]))
  {
    ExecSnoc(w, evs, WriteNext(id));
    hide Exec, TryWrite;
  }

  /** How many writes a worker that is not overtaken can still need. */
  function WritesLeft(k: Worker): (n: nat)
    requires k.Busy?
  {
    if k.attempt >= 1 then 1 else if k.stage.AddToCurrent? then 4 else if k.stage.RollFromPrevious? then 3 else 2
  }

  lemma LostWrite(s: Sys, w: int, k: Worker)
    requires k.Busy? && Progress(s, k) && !Overtaken(s, k.boundary)
    requires TryWrite(s.item, k.stage, k.boundary, w, k.cost).None?
    ensures NextStage(k).Busy? && WritesLeft(NextStage(k)) < WritesLeft(k)
    ensures NextStage(k).boundary == k.boundary && NextStage(k).cost == k.cost
  {
  }

  /**
   From every reachable state a worker whose slice is not over for the item commits with at most four writes of its
   own, if nobody interferes; one whose slice is over never does (`OvertakenNeverCommits`).
   */
  lemma {:induction false} NotOvertakenCommits(w: int, evs: seq<Event>, id: nat) returns (more: seq<Event>)
    requires w >= 1 && id in Exec(w, evs).workers && Exec(w, evs).workers[id].Busy?
    requires !Overtaken(Exec(w, evs), Exec(w, evs).workers[id].boundary)
    ensures |more| <= WritesLeft(Exec(w, evs).workers[id]) <= 4
    ensures forall i :: 0 <= i < |more| ==> more[i] == WriteNext(id)
    ensures var (s, r) := (Exec(w, evs), Exec(w, evs + more));
            && id in r.workers && r.workers[id].Committed?
            && r.commits == s.commits + [Commit(s.workers[id].boundary, s.workers[id].cost)]
    decreases WritesLeft(Exec(w, evs).workers[id])
  {
    RunProgress(w, evs);
    var (s, k) := (Exec(w, evs), Exec(w, evs).workers[id]);
    assert Progress(s, k);
    NextWrite(w, evs, id);
    hide Exec, TryWrite, NextStage, WritesLeft, Progress, AllProgress;
    more := [WriteNext(id)];
    if TryWrite(s.item, k.stage, k.boundary, w, k.cost).None? {
      LostWrite(s, w, k);
      var rest := NotOvertakenCommits(w, evs + more, id);
      assert (evs + more) + rest == evs + (more + rest);
      more := more + rest;
    }
    AtLeastOne(k);
  }

  lemma AtLeastOne(k: Worker)
    requires k.Busy?
    ensures 1 <= WritesLeft(k) <= 4
  {
  }

  /** Conditional writes that a worker has made. */
  function WritesBy(w: int, evs: seq<Event>, id: nat): (n: nat)
    requires w >= 1
  {
    if evs == [] then 0
    else
      var (init, ev) := (evs[..|evs| - 1], evs[|evs| - 1]);
      WritesBy(w, init, id) + if ev == WriteNext(id) && Enabled(Exec(w, init), ev) then 1 else 0
  }

  /** A worker gives up after 24 attempts of three writes each, neither earlier nor later. */
  lemma {:induction false} GivesUpAfter24(w: int, evs: seq<Event>, id: nat)
    requires w >= 1
    ensures id !in Exec(w, evs).workers ==> WritesBy(w, evs, id) == 0
    ensures id in Exec(w, evs).workers ==>
              var n := WritesBy(w, evs, id);
              match Exec(w, evs).workers[id]
              case Busy(_, _, attempt, AddToCurrent) => n == 3 * attempt < 72
              case Busy(_, _, attempt, RollFromPrevious) => n == 3 * attempt + 1 < 72
              case Busy(_, _, attempt, StartFresh) => n == 3 * attempt + 2 < 72
              case Committed(_, _, _) => 1 <= n <= 72
              case Failed(_, _) => n == 72
  {
    if evs != [] {
      hide Boundary, TryWrite;
      GivesUpAfter24(w, evs[..|evs| - 1], id);
    }
  }

  // ----- a single writer ----------------------------------------------------------------------

  /** The first of the three writes of an attempt that goes through on an item nobody else touches. */
  function Attempt(item: Option<Weighted>, b: int, w: int, cost: Cost): (r: Option<Weighted>) {
    if TryWrite(item, AddToCurrent, b, w, cost).Some? then TryWrite(item, AddToCurrent, b, w, cost)
    else if TryWrite(item, RollFromPrevious, b, w, cost).Some? then TryWrite(item, RollFromPrevious, b, w, cost)
    else TryWrite(item, StartFresh, b, w, cost)
  }

  /** An undisturbed attempt writes what the model simulates, unless the stored window is ahead of the clock. */
  lemma AttemptSimulates(item: Option<Weighted>, now: int, w: int, cost: Cost)
    requires w >= 1
    ensures Attempt(item, Boundary(now, w), w, cost)
            == if item.Some? && item.value.currentWindowStart > Boundary(now, w) then None
              else Some(Simulate(item, now, w, cost))
  {
    hide Boundary;
  }

  /** The write loop at one hit after the other: the item it leaves, and how many hits it committed. */
  function LoopRun(hits: seq<Hit>, w: int): (r: (Option<Weighted>, nat))
    requires w >= 1
  {
    if hits == [] then (None, 0)
    else
      var (item, n) := LoopRun(hits[..|hits| - 1], w);
      var written := Attempt(item, Boundary(hits[|hits| - 1].at, w), w, hits[|hits| - 1].cost);
      if written.Some? then (written, n + 1) else (item, n)
  }

  /** A single writer whose clock does not run backwards commits every hit, and ends where the model does. */
  lemma {:induction false} SingleWriterFollowsModel(hits: seq<Hit>, w: int)
    requires w >= 1 && Ordered(hits)
    ensures LoopRun(hits, w) == (Run(hits, w), |hits|)
  {
    if hits != [] {
      var init, last := hits[..|hits| - 1], hits[|hits| - 1];
      SingleWriterFollowsModel(init, w);
      AttemptSimulates(Run(init, w), last.at, w, last.cost);
      if init != [] {
        assert init + [last] == hits;
        SingleWriterNeverBehind(init, last, w);
      }
    }
  }

  /** The shared item, as one worker with nobody else around sees it. */
  class Table {
    var item: Option<Weighted>

    constructor ()
      ensures item == None
    {
      item := None;
    }

    method ConditionalWrite(stage: Stage, b: int, w: int, cost: Cost) returns (ok: bool)
      modifies this
      ensures var written := TryWrite(old(item), stage, b, w, cost);
              ok == written.Some? && item == if ok then written else old(item)
    {
      var written := TryWrite(item, stage, b, w, cost);
      ok := written.Some?;
      if ok {
        item := written;
      }
    }

    /**
     The bounded retry loop. It commits what the model simulates, unless the stored window is
     ahead of this clock; then it gives up and leaves the item alone, where the model would reset it.
     */
    method RunSlidingIncrement(now: int, w: int, cost: Cost) returns (ok: bool)
      requires w >= 1
      modifies this
      ensures ok == (old(item).None? || old(item).value.currentWindowStart <= Boundary(now, w))
      ensures item == if ok then Some(Simulate(old(item), now, w, cost)) else old(item)
      ensures var written := Attempt(old(item), Boundary(now, w), w, cost);
              ok == written.Some? && (ok ==> item == written)
    {
      AttemptSimulates(item, now, w, cost);
      var b := Boundary(now, w);
      var attempt := 0;
      while attempt < MAX_ATTEMPTS
        invariant 0 <= attempt <= MAX_ATTEMPTS && item == old(item)
        invariant attempt > 0 ==> item.Some? && item.value.currentWindowStart > b
      {
        ok := ConditionalWrite(AddToCurrent, b, w, cost);
        if ok {
          return;
        }
        ok := ConditionalWrite(RollFromPrevious, b, w, cost);
        if ok {
          return;
        }
        ok := ConditionalWrite(StartFresh, b, w, cost);
        if ok {
          return;
        }
        attempt := attempt + 1;
      }
      ok := false;
    }

    /** A request: its answer, or none when it cannot commit. */
    method IncrementSliding(now: int, w: int, cost: Cost, cap: int) returns (r: Option<Result>)
      requires w >= 1
      modifies this
      ensures r.Some? <==> old(item).None? || old(item).value.currentWindowStart <= Boundary(now, w)
      ensures item == if r.Some? then Some(Simulate(old(item), now, w, cost)) else old(item)
      ensures r.Some? ==> r.value == ResultOf(Simulate(old(item), now, w, cost), now, w, cap)
    {
      hide Boundary, ResultOf, Simulate;
      var ok := RunSlidingIncrement(now, w, cost);
      if !ok {
        return None;
      }
      r := Some(ResultOf(item.value, now, w, cap));
    }
  }

  /**
   A single writer whose clock does not run backwards is never behind, so its loop commits and follows the model at
   every hit.
   */
  lemma SingleWriterNeverBehind(hits: seq<Hit>, next: Hit, w: int)
    requires w >= 1 && hits != [] && Ordered(hits + [next])
    ensures Run(hits, w).value.currentWindowStart <= Boundary(next.at, w)
    ensures Run(hits + [next], w) == Some(Simulate(Run(hits, w), next.at, w, next.cost))
  {
    assert (hits + [next])[..|hits|] == hits;
    CountersExact(hits, w);
    DivMonotone(hits[|hits| - 1].at, next.at, w);
    MultiplesOrdered(hits[|hits| - 1].at / w, next.at / w, w);
  }

  /** The conditional writes and the simulation part ways exactly on a clock behind the stored window. */
  lemma SimulationResetsBehindClock(item: Weighted, now: int, w: int, cost: Cost)
    requires w >= 1 && item.currentWindowStart > Boundary(now, w)
    ensures forall stage :: TryWrite(Some(item), stage, Boundary(now, w), w, cost) == None
    ensures Simulate(Some(item), now, w, cost) == Weighted(Boundary(now, w), cost, 0) != item
  {
  }
}
