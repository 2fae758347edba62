/**
 Token-bucket increments on one shared DynamoDB item: any number of workers, each with its
 own clock, interleaved between the read and the conditional write of every attempt. Every
 interleaving is a serial run of refill-and-deduct in commit order.
 */
module DynamoBucket {
  import opened Entries
  import opened EntryLaws
  import BucketRuns
  import opened BucketTicks

  const MAX_ATTEMPTS := 12

  /** `started` and `readAt` count the commits made when the worker began and when it last read. */
  datatype Worker =
    | Reading(now: int, cost: Cost, attempt: nat, started: nat)
    | Writing(now: int, cost: Cost, attempt: nat, started: nat, snapshot: Option<KeyState>, readAt: nat)
    | Returned(now: int, cost: Cost, result: Result, place: nat)
    | Failed(now: int, cost: Cost, started: nat)

  datatype Commit = Commit(id: nat, now: int, cost: Cost)

  datatype Sys = Sys(item: Option<KeyState>, workers: map<nat, Worker>, commits: seq<Commit>)

  datatype Event =
    | Begin(id: nat, now: int, cost: Cost)
    | Get(id: nat)
    | Write(id: nat)

  ghost predicate BucketConfig(cfg: Strategy) {
    cfg.Valid() && cfg.TokenBucket?
  }

  predicate Enabled(s: Sys, ev: Event) {
    match ev
    case Begin(id, _, _) => id !in s.workers
    case Get(id) => id in s.workers && s.workers[id].Reading?
    case Write(id) => id in s.workers && s.workers[id].Writing?
  }

  /** The write goes through when the item is still as it was read: absent, or the same tokens and refill time. */
  function AfterWrite(cfg: Strategy, s: Sys, id: nat): (r: Sys)
    requires cfg.Valid() && cfg.TokenBucket? && Enabled(s, Write(id)) && MatchesOption(cfg, s.workers[id].snapshot)
  {
    var k := s.workers[id];
    if s.item == k.snapshot then
      var (next, res) := BucketIncrement(cfg, k.snapshot, k.cost, k.now);
      Sys(Some(next), s.workers[id := Returned(k.now, k.cost, res, |s.commits|)],
        s.commits + [Commit(id, k.now, k.cost)])
    else if k.attempt + 1 < MAX_ATTEMPTS then
      s.(workers := s.workers[id := Reading(k.now, k.cost, k.attempt + 1, k.started)])
    else
      s.(workers := s.workers[id := Failed(k.now, k.cost, k.started)])
  }

  predicate Typed(cfg: Strategy, s: Sys) {
    && MatchesOption(cfg, s.item)
    && forall id :: id in s.workers && s.workers[id].Writing? ==> MatchesOption(cfg, s.workers[id].snapshot)
  }

  function Step(cfg: Strategy, s: Sys, ev: Event): (r: Sys)
    requires cfg.Valid() && cfg.TokenBucket? && Enabled(s, ev) && Typed(cfg, s)
    ensures Typed(cfg, r)
  {
    match ev
    case Begin(id, now, cost) =>
      s.(workers := s.workers[id := Reading(now, cost, 0, |s.commits|)])
    case Get(id) =>
      var k := s.workers[id];
      s.(workers := s.workers[id := Writing(k.now, k.cost, k.attempt, k.started, s.item, |s.commits|)])
    case Write(id) => AfterWrite(cfg, s, id)
  }

  function Exec(cfg: Strategy, evs: seq<Event>): (s: Sys)
    requires cfg.Valid() && cfg.TokenBucket?
    ensures Typed(cfg, s)
  {
    if evs == [] then Sys(None, map[], [])
    else
      var prev := Exec(cfg, evs[..|evs| - 1]);
      if Enabled(prev, evs[|evs| - 1]) then Step(cfg, prev, evs[|evs| - 1]) else prev
  }

  // ----- the serial reference ----------------------------------------------------------

  /** Refill-and-deduct, one commit after the other, each with its own worker's clock. */
  ghost function Serial(cfg: Strategy, commits: seq<Commit>): (item: Option<KeyState>)
    requires BucketConfig(cfg)
    ensures MatchesOption(cfg, item) && (item.None? <==> commits == [])
  {
    if commits == [] then None
    else
      var c := commits[|commits| - 1];
      Some(BucketIncrement(cfg, Serial(cfg, commits[..|commits| - 1]), c.cost, c.now).0)
  }

  ghost function SerialResult(cfg: Strategy, commits: seq<Commit>, i: nat): (r: Result)
    requires BucketConfig(cfg) && i < |commits|
  {
    BucketIncrement(cfg, Serial(cfg, commits[..i]), commits[i].cost, commits[i].now).1
  }

  lemma SerialSnoc(cfg: Strategy, commits: seq<Commit>, c: Commit)
    requires BucketConfig(cfg)
    ensures Serial(cfg, commits + [c]) == Some(BucketIncrement(cfg, Serial(cfg, commits), c.cost, c.now).0)
    ensures SerialResult(cfg, commits + [c], |commits|) == BucketIncrement(cfg, Serial(cfg, commits), c.cost, c.now).1
  {
    hide BucketIncrement;
    assert (commits + [c])[..|commits|] == commits;
  }

  lemma SerialResultStable(cfg: Strategy, commits: seq<Commit>, c: Commit, i: nat)
    requires BucketConfig(cfg) && i < |commits|
    ensures SerialResult(cfg, commits + [c], i) == SerialResult(cfg, commits, i)
  {
    hide BucketIncrement, Serial;
    assert (commits + [c])[..i] == commits[..i];
  }

  // ----- every interleaving is serial -----------------------------------------------------

  /** What a worker knows about the commits so far. */
  ghost predicate Placed(cfg: Strategy, s: Sys, id: nat, k: Worker)
    requires BucketConfig(cfg)
  {
    match k
    case Reading(_, _, attempt, started) => started + attempt <= |s.commits|
    case Writing(_, _, attempt, started, snapshot, readAt) =>
      && started + attempt <= readAt <= |s.commits|
      && snapshot == Serial(cfg, s.commits[..readAt])
    case Returned(now, cost, result, place) =>
      && place < |s.commits| && s.commits[place] == Commit(id, now, cost)
      && result == SerialResult(cfg, s.commits, place)
    case Failed(_, _, started) => started + MAX_ATTEMPTS <= |s.commits|
  }

  ghost predicate OwnedAt(s: Sys, i: nat)
    requires i < |s.commits|
  {
    var id := s.commits[i].id;
    id in s.workers && s.workers[id].Returned? && s.workers[id].place == i
  }

  ghost predicate Serialized(cfg: Strategy, s: Sys)
    requires BucketConfig(cfg)
  {
    && s.item == Serial(cfg, s.commits)
    && (forall id :: id in s.workers ==> Placed(cfg, s, id, s.workers[id]))
    && (forall i :: 0 <= i < |s.commits| ==> OwnedAt(s, i))
  }

  lemma PlacedStable(cfg: Strategy, s: Sys, r: Sys, c: Commit, id: nat, k: Worker)
    requires BucketConfig(cfg) && Placed(cfg, s, id, k) && r.commits == s.commits + [c]
    ensures Placed(cfg, r, id, k)
  {
    hide Serial, SerialResult;
    if k.Returned? {
      SerialResultStable(cfg, s.commits, c, k.place);
    } else if k.Writing? {
      assert r.commits[..k.readAt] == s.commits[..k.readAt];
    }
  }

  lemma CommitSerialized(cfg: Strategy, s: Sys, id: nat)
    requires BucketConfig(cfg) && Typed(cfg, s) && Serialized(cfg, s) && Enabled(s, Write(id))
    requires s.item == s.workers[id].snapshot
    ensures Serialized(cfg, AfterWrite(cfg, s, id))
  {
    hide BucketIncrement, Serial, SerialResult, Placed;
    var k := s.workers[id];
    var c := Commit(id, k.now, k.cost);
    var r := AfterWrite(cfg, s, id);
    SerialSnoc(cfg, s.commits, c);
    NewPlaced(cfg, s, r, c, r.workers[id]);
    forall x | x in r.workers ensures Placed(cfg, r, x, r.workers[x]) {
      if x != id {
        PlacedStable(cfg, s, r, c, x, s.workers[x]);
      }
    }
    forall i | 0 <= i < |r.commits| ensures OwnedAt(r, i) {
      assert i < |s.commits| ==> OwnedAt(s, i);
    }
  }

  lemma NewPlaced(cfg: Strategy, s: Sys, r: Sys, c: Commit, k: Worker)
    requires BucketConfig(cfg) && r.commits == s.commits + [c]
    requires k == Returned(c.now, c.cost, SerialResult(cfg, r.commits, |s.commits|), |s.commits|)
    ensures Placed(cfg, r, c.id, k)
  {
    hide SerialResult, Serial;
  }

  lemma LostRace(cfg: Strategy, s: Sys, id: nat)
    requires BucketConfig(cfg) && s.item == Serial(cfg, s.commits) && Enabled(s, Write(id))
    requires Placed(cfg, s, id, s.workers[id]) && s.item != s.workers[id].snapshot
    ensures s.workers[id].readAt < |s.commits|
  {
    hide Serial, SerialResult;
    assert s.commits[..|s.commits|] == s.commits;
  }

  lemma QuietSerialized(cfg: Strategy, s: Sys, ev: Event)
    requires BucketConfig(cfg) && Typed(cfg, s) && Serialized(cfg, s) && Enabled(s, ev)
    requires ev.Write? ==> s.item != s.workers[ev.id].snapshot
    ensures Serialized(cfg, Step(cfg, s, ev))
  {
    hide Serial, SerialResult, BucketIncrement;
    if ev.Write? {
      LostRace(cfg, s, ev.id);
    }
    assert s.commits[..|s.commits|] == s.commits;
    var r := Step(cfg, s, ev);
    forall id | id in r.workers ensures Placed(cfg, r, id, r.workers[id]) {
      if id != ev.id {
        assert Placed(cfg, s, id, s.workers[id]);
      }
    }
    forall i | 0 <= i < |r.commits| ensures OwnedAt(r, i) {
      assert OwnedAt(s, i);
    }
  }

  lemma StepSerialized(cfg: Strategy, s: Sys, ev: Event)
    requires BucketConfig(cfg) && Typed(cfg, s) && Serialized(cfg, s) && Enabled(s, ev)
    ensures Serialized(cfg, Step(cfg, s, ev))
  {
    hide Serialized, AfterWrite;
    if ev.Write? && s.item == s.workers[ev.id].snapshot {
      CommitSerialized(cfg, s, ev.id);
    } else {
      QuietSerialized(cfg, s, ev);
    }
  }

  /**
   In every interleaving the item is the serial run of the commits in commit order; each worker that
   returned owns exactly one commit and returns its serial result; one that gave up has lost to twelve
   commits made since it began. Tokens and refill time returning to old values between read and
   write is harmless: they are the whole state.
   */
  lemma {:induction false} EveryInterleavingIsSerial(cfg: Strategy, evs: seq<Event>)
    requires BucketConfig(cfg)
    ensures Serialized(cfg, Exec(cfg, evs))
  {
    if evs != [] {
      hide Step, Serialized;
      EveryInterleavingIsSerial(cfg, evs[..|evs| - 1]);
      var prev := Exec(cfg, evs[..|evs| - 1]);
      if Enabled(prev, evs[|evs| - 1]) {
        StepSerialized(cfg, prev, evs[|evs| - 1]);
      }
    }
  }

  /** Conditional writes that a worker has made. */
  function WritesBy(cfg: Strategy, evs: seq<Event>, id: nat): (n: nat)
    requires cfg.Valid() && cfg.TokenBucket?
  {
    if evs == [] then 0
    else
      var (init, ev) := (evs[..|evs| - 1], evs[|evs| - 1]);
      WritesBy(cfg, init, id) + if ev == Write(id) && Enabled(Exec(cfg, init), ev) then 1 else 0
  }

  /** A worker gives up after twelve lost writes, neither earlier nor later. */
  lemma {:induction false} GivesUpAfter12(cfg: Strategy, evs: seq<Event>, id: nat)
    requires BucketConfig(cfg)
    ensures id !in Exec(cfg, evs).workers ==> WritesBy(cfg, evs, id) == 0
    ensures id in Exec(cfg, evs).workers ==>
              var n := WritesBy(cfg, evs, id);
              match Exec(cfg, evs).workers[id]
              case Reading(_, _, attempt, _) => n == attempt < 12
              case Writing(_, _, attempt, _, _, _) => n == attempt < 12
              case Returned(_, _, _, _) => 1 <= n <= 12
              case Failed(_, _, _) => n == 12
  {
    if evs != [] {
      hide BucketIncrement;
      GivesUpAfter12(cfg, evs[..|evs| - 1], id);
    }
  }

  // ----- the serial run, tick by tick -----------------------------------------------------------

  /** The ticking bucket over the commits, each with its own worker's clock; a clock that is behind ticks nothing. */
  ghost function TickedCommits(cfg: Strategy, commits: seq<Commit>): (t: Option<Ticker>)
    requires BucketConfig(cfg)
  {
    if commits == [] then None
    else
      var c := commits[|commits| - 1];
      var b := AtTime(cfg, TickedCommits(cfg, commits[..|commits| - 1]), c.now);
      Some(if b.tokens < c.cost then b else b.(tokens := b.tokens - c.cost))
  }

  lemma {:induction false} SerialIsTicked(cfg: Strategy, commits: seq<Commit>)
    requires BucketConfig(cfg)
    ensures Shown(Serial(cfg, commits)) == TickedCommits(cfg, commits)
  {
    if commits != [] {
      var (init, c) := (commits[..|commits| - 1], commits[|commits| - 1]);
      SerialIsTicked(cfg, init);
      IncrementIsTicked(cfg, Serial(cfg, init), None, c.cost, c.now);
      hide BucketIncrement, AtTime, AnswersAs;
    }
  }

  /**
   In every interleaving the item holds what the ticking bucket holds after the commits so far, and each returned
   result is what that bucket, as it was before the worker's own commit, answers at the worker's clock.
   */
  lemma EveryResultIsTicked(cfg: Strategy, evs: seq<Event>, id: nat)
    requires BucketConfig(cfg)
    ensures var s := Exec(cfg, evs);
            && Shown(s.item) == TickedCommits(cfg, s.commits)
            && (id in s.workers && s.workers[id].Returned? ==>
                  var k := s.workers[id];
                  && k.place < |s.commits| && s.commits[k.place] == Commit(id, k.now, k.cost)
                  && AnswersAs(cfg, AtTime(cfg, TickedCommits(cfg, s.commits[..k.place]), k.now), k.cost, k.result))
  {
    hide Exec, AtTime, AnswersAs, TickedCommits, BucketIncrement;
    var s := Exec(cfg, evs);
    EveryInterleavingIsSerial(cfg, evs);
    SerialIsTicked(cfg, s.commits);
    if id in s.workers && s.workers[id].Returned? {
      var k := s.workers[id];
      assert Placed(cfg, s, id, k);
      SerialIsTicked(cfg, s.commits[..k.place]);
      IncrementIsTicked(cfg, Serial(cfg, s.commits[..k.place]), None, k.cost, k.now);
    }
    hide Serial;
  }

  lemma ExecSnoc(cfg: Strategy, evs: seq<Event>, ev: Event)
    requires BucketConfig(cfg)
    ensures var s := Exec(cfg, evs); Enabled(s, ev) ==> Exec(cfg, evs + [ev]) == Step(cfg, s, ev)
  {
    hide Step;
    assert (evs + [ev])[..|evs|] == evs;
  }

  /** From every reachable state a worker that is about to read commits at once, if nobody writes in between. */
  lemma UndisturbedCommits(cfg: Strategy, evs: seq<Event>, id: nat)
    requires BucketConfig(cfg) && id in Exec(cfg, evs).workers && Exec(cfg, evs).workers[id].Reading?
    ensures var (s, r) := (Exec(cfg, evs), Exec(cfg, evs + [Get(id)] + [Write(id)]));
            && id in r.workers && r.workers[id].Returned?
            && r.commits == s.commits + [Commit(id, s.workers[id].now, s.workers[id].cost)]
  {
    ExecSnoc(cfg, evs, Get(id));
    ExecSnoc(cfg, evs + [Get(id)], Write(id));
    hide Exec, BucketIncrement;
  }

  // ----- the quota under clock skew ----------------------------------------------------------

  ghost function AdmittedOf(cfg: Strategy, commits: seq<Commit>): (n: nat)
    requires BucketConfig(cfg)
  {
    if commits == [] then 0
    else
      var last := |commits| - 1;
      AdmittedOf(cfg, commits[..last])
      + if BucketIncrement(cfg, Serial(cfg, commits[..last]), commits[last].cost, commits[last].now).1.isBlocked
        then 0 else commits[last].cost
  }

  /** The latest clock reading any commit used. */
  ghost function LatestClock(commits: seq<Commit>): (t: int)
    requires commits != []
  {
    if |commits| == 1 then commits[0].now else Max(LatestClock(commits[..|commits| - 1]), commits[|commits| - 1].now)
  }

  /**
   After the refills of `ticks` whole intervals since creation: what was admitted and what is left fit in the bucket
   plus the refills.
   */
  ghost predicate Conserved(cfg: Strategy, b: KeyState, admitted: nat, created: int, ticks: int)
    requires BucketConfig(cfg)
  {
    && b.Bucket? && 0 <= b.tokens <= cfg.bucketSize && ticks >= 0
    && b.lastRefill == created + ticks * cfg.interval
    && admitted + b.tokens <= cfg.bucketSize + ticks * cfg.tokensPerInterval
  }

  lemma RefillConserved(cfg: Strategy, b: KeyState, admitted: nat, created: int, ticks: int,
      now: int) returns (more: int)
    requires BucketConfig(cfg) && Conserved(cfg, b, admitted, created, ticks)
    ensures Conserved(cfg, Refill(cfg, b, now), admitted, created, more) && more >= ticks
    ensures b.lastRefill <= Refill(cfg, b, now).lastRefill <= Max(b.lastRefill, now)
  {
    var i := (now - b.lastRefill) / cfg.interval;
    more := ticks;
    if i > 0 {
      more := ticks + i;
      Distribute(ticks, i, cfg.interval);
      Distribute(ticks, i, cfg.tokensPerInterval);
      MultipleIsFar(i, cfg.interval);
      BucketRuns.TimesMonotone(0, i, cfg.tokensPerInterval);
      RefillLands(cfg, b, now);
    }
  }

  lemma Distribute(a: int, b: int, c: int)
    ensures (a + b) * c == a * c + b * c
  {
  }

  lemma IncrementConserved(cfg: Strategy, b: KeyState, admitted: nat, created: int, ticks: int, cost: Cost,
      now: int) returns (more: int)
    requires BucketConfig(cfg) && Conserved(cfg, b, admitted, created, ticks)
    ensures var (next, r) := BucketIncrement(cfg, Some(b), cost, now);
            && Conserved(cfg, next, admitted + (if r.isBlocked then 0 else cost), created, more)
            && b.lastRefill <= next.lastRefill <= Max(b.lastRefill, now)
  {
    more := RefillConserved(cfg, b, admitted, created, ticks, now);
    hide Refill;
  }

  lemma {:induction false} RunConserved(cfg: Strategy, commits: seq<Commit>) returns (ticks: int)
    requires BucketConfig(cfg) && commits != []
    ensures Conserved(cfg, Serial(cfg, commits).value, AdmittedOf(cfg, commits), commits[0].now, ticks)
    ensures Serial(cfg, commits).value.lastRefill <= LatestClock(commits)
  {
    var init, c := commits[..|commits| - 1], commits[|commits| - 1];
    if init == [] {
      ticks := 0;
      CreateConserved(cfg, c.cost, c.now);
    } else {
      var before := RunConserved(cfg, init);
      hide BucketIncrement, Conserved;
      ticks := IncrementConserved(cfg, Serial(cfg, init).value, AdmittedOf(cfg, init), commits[0].now, before,
        c.cost, c.now);
    }
  }

  lemma CreateConserved(cfg: Strategy, cost: Cost, now: int)
    requires BucketConfig(cfg)
    ensures var (next, r) := BucketIncrement(cfg, None, cost, now);
            Conserved(cfg, next, if r.isBlocked then 0 else cost, now, 0) && next.lastRefill == now
  {
  }

  /**
   Whatever the clocks: the tokens stay in the bucket, and all workers together are admitted at most a
   full bucket plus the refills of the whole intervals from creation to the latest clock used.
   */
  lemma AdmittedUnderSkew(cfg: Strategy, evs: seq<Event>)
    requires BucketConfig(cfg) && Exec(cfg, evs).item.Some?
    ensures var s := Exec(cfg, evs);
            && s.commits != [] && s.item.value.Bucket? && 0 <= s.item.value.tokens <= cfg.bucketSize
            && AdmittedOf(cfg, s.commits) <= cfg.bucketSize
               + cfg.tokensPerInterval * ((LatestClock(s.commits) - s.commits[0].now) / cfg.interval)
  {
    hide Exec, LatestClock, AdmittedOf, Serial;
    var s := Exec(cfg, evs);
    EveryInterleavingIsSerial(cfg, evs);
    var ticks := RunConserved(cfg, s.commits);
    var whole := (LatestClock(s.commits) - s.commits[0].now) / cfg.interval;
    DivMonotone(ticks * cfg.interval, LatestClock(s.commits) - s.commits[0].now, cfg.interval);
    DivUnique(ticks * cfg.interval, cfg.interval, ticks, 0);
    BucketRuns.TimesMonotone(ticks, whole, cfg.tokensPerInterval);
  }

  // ----- one worker's loop ------------------------------------------------------------------------

  /**
   The retry loop of one worker. `seen[i]` is the item as attempt `i` reads it and `found[i]` as its
   write finds it; what happens in between is up to the others. The first attempt that finds what it
   read replaces exactly that; with no such attempt nothing is written.
   */
  method IncrementTokenBucket(cfg: Strategy, cost: Cost, now: int, seen: seq<Option<KeyState>>,
      found: seq<Option<KeyState>>)
    returns (result: Option<Result>, written: Option<KeyState>, attempt: nat)
    requires cfg.Valid() && cfg.TokenBucket? && |seen| == |found| == MAX_ATTEMPTS
    requires forall i :: 0 <= i < |seen| ==> MatchesOption(cfg, seen[i])
    ensures attempt <= MAX_ATTEMPTS && forall i :: 0 <= i < attempt ==> seen[i] != found[i]
    ensures attempt == MAX_ATTEMPTS ==> result == None && written == None
    ensures attempt < MAX_ATTEMPTS ==>
              && MatchesOption(cfg, found[attempt])
              && result == Some(BucketIncrement(cfg, found[attempt], cost, now).1)
              && written == Some(BucketIncrement(cfg, found[attempt], cost, now).0)
  {
    attempt := 0;
    while attempt < MAX_ATTEMPTS
      invariant attempt <= MAX_ATTEMPTS && forall i :: 0 <= i < attempt ==> seen[i] != found[i]
    {
      var stored := if seen[attempt].None? then Bucket(cfg.bucketSize, now) else seen[attempt].value;
      var refilled := Refill(cfg, stored, now);
      var isBlocked := refilled.tokens < cost;
      var tokens := if isBlocked then refilled.tokens else refilled.tokens - cost;
      if found[attempt] == seen[attempt] {
        written := Some(Bucket(tokens, refilled.lastRefill));
        result := Some(Result(if isBlocked then cfg.bucketSize else cfg.bucketSize - tokens,
                              if isBlocked then 0 else tokens, refilled.lastRefill + cfg.interval, isBlocked));
        return;
      }
      attempt := attempt + 1;
    }
    return None, None, MAX_ATTEMPTS;
  }
}
