/**
 The token-bucket guarantee over whole runs of one key: between any two instants the
 admitted cost is at most a full bucket plus the refills that fit in between, also when
 an idle full bucket is purged and recreated on the way.
 */
module BucketRuns {
  import opened Entries
  import opened EntryLaws

  datatype BucketOp =
    | Take(n: Cost, now: int)
    | IdlePurge(now: int)

  ghost predicate Sound(cfg: Strategy, s: Option<KeyState>, now: int) {
    && cfg.Valid() && cfg.TokenBucket? && MatchesOption(cfg, s)
    && (s.Some? ==> 0 <= s.value.tokens <= cfg.bucketSize && s.value.lastRefill <= now)
  }

  ghost function Next(cfg: Strategy, s: Option<KeyState>, op: BucketOp): (r: Option<KeyState>)
    requires cfg.Valid() && cfg.TokenBucket? && MatchesOption(cfg, s)
    ensures MatchesOption(cfg, r)
  {
    match op
    case Take(n, now) => Some(Increment(cfg, s, None, n, now).0)
    case IdlePurge(now) => if s.Some? && IdleFull(cfg, s.value, now) then None else s
  }

  ghost function Granted(cfg: Strategy, s: Option<KeyState>, op: BucketOp): (n: nat)
    requires cfg.Valid() && cfg.TokenBucket? && MatchesOption(cfg, s)
  {
    if op.Take? && !Increment(cfg, s, None, op.n, op.now).1.isBlocked then op.n else 0
  }

  /** Cost admitted by a run that starts from `s`. */
  ghost function Admitted(cfg: Strategy, s: Option<KeyState>, ops: seq<BucketOp>): (n: nat)
    requires cfg.Valid() && cfg.TokenBucket? && MatchesOption(cfg, s)
    decreases |ops|
  {
    if ops == [] then 0 else Granted(cfg, s, ops[0]) + Admitted(cfg, Next(cfg, s, ops[0]), ops[1..])
  }

  /** The clock never runs backwards, from `first` to `last`. */
  ghost predicate Timed(ops: seq<BucketOp>, first: int, last: int)
    decreases |ops|
  {
    first <= last && (ops == [] || (first <= ops[0].now && Timed(ops[1..], ops[0].now, last)))
  }

  /** What the state at `now` can still grant up to `last`. */
  ghost function Budget(cfg: Strategy, s: Option<KeyState>, now: int, last: int): (n: int)
    requires cfg.Valid() && cfg.TokenBucket? && MatchesOption(cfg, s)
  {
    if s.Some? then s.value.tokens + cfg.tokensPerInterval * ((last - s.value.lastRefill) / cfg.interval)
    else cfg.bucketSize + cfg.tokensPerInterval * ((last - now) / cfg.interval)
  }

  lemma TimesMonotone(a: int, b: int, c: int)
    requires a <= b && c >= 0
    ensures c * a <= c * b
  {
  }

  /** Refilling never raises the budget. */
  lemma RefillWithinBudget(cfg: Strategy, b: KeyState, now: int, last: int)
    requires Sound(cfg, Some(b), now) && now <= last
    ensures Sound(cfg, Some(Refill(cfg, b, now)), now)
    ensures Budget(cfg, Some(Refill(cfg, b, now)), now, last) <= Budget(cfg, Some(b), now, last)
  {
    var j := (now - b.lastRefill) / cfg.interval;
    RefillLands(cfg, b, now);
    if j > 0 {
      DivShift(last - b.lastRefill, j, cfg.interval);
      var whole := (last - b.lastRefill) / cfg.interval;
      assert (last - (b.lastRefill + j * cfg.interval)) / cfg.interval == whole - j;
      assert cfg.tokensPerInterval * (whole - j) == cfg.tokensPerInterval * whole - j * cfg.tokensPerInterval;
      TimesMonotone(0, j, cfg.tokensPerInterval);
    }
  }

  lemma TakeWithinBudget(cfg: Strategy, s: Option<KeyState>, op: BucketOp, before: int, last: int)
    requires Sound(cfg, s, before) && before <= op.now <= last && op.Take?
    requires s.None? ==> Budget(cfg, s, op.now, last) <= Budget(cfg, s, before, last)
    ensures Sound(cfg, Next(cfg, s, op), op.now)
    ensures Granted(cfg, s, op) + Budget(cfg, Next(cfg, s, op), op.now, last) <= Budget(cfg, s, before, last)
  {
    var b := if s.None? then Bucket(cfg.bucketSize, op.now) else s.value;
    RefillWithinBudget(cfg, b, op.now, last);
    hide Refill;
  }

  /** A step grants no more than the budget it uses up. */
  lemma StepWithinBudget(cfg: Strategy, s: Option<KeyState>, op: BucketOp, before: int, last: int)
    requires Sound(cfg, s, before) && before <= op.now <= last
    ensures Sound(cfg, Next(cfg, s, op), op.now)
    ensures Granted(cfg, s, op) + Budget(cfg, Next(cfg, s, op), op.now, last) <= Budget(cfg, s, before, last)
  {
    DivMonotone(last - op.now, last - before, cfg.interval);
    TimesMonotone((last - op.now) / cfg.interval, (last - before) / cfg.interval, cfg.tokensPerInterval);
    if op.Take? {
      TakeWithinBudget(cfg, s, op, before, last);
    } else if s.Some? {
      DivMonotone(last - op.now, last - s.value.lastRefill, cfg.interval);
      TimesMonotone((last - op.now) / cfg.interval, (last - s.value.lastRefill) / cfg.interval, cfg.tokensPerInterval);
    }
  }

  lemma {:induction false} RunWithinBudget(cfg: Strategy, s: Option<KeyState>, ops: seq<BucketOp>, now: int, last: int)
    requires Sound(cfg, s, now) && Timed(ops, now, last)
    ensures Admitted(cfg, s, ops) <= Budget(cfg, s, now, last)
    decreases |ops|
  {
    if ops == [] {
      if s.Some? {
        DivMonotone(0, last - s.value.lastRefill, cfg.interval);
        TimesMonotone(0, (last - s.value.lastRefill) / cfg.interval, cfg.tokensPerInterval);
      } else {
        DivMonotone(0, last - now, cfg.interval);
        TimesMonotone(0, (last - now) / cfg.interval, cfg.tokensPerInterval);
      }
    } else {
      TimedBound(ops, now, last);
      StepWithinBudget(cfg, s, ops[0], now, last);
      hide Budget, Granted, Next;
      RunWithinBudget(cfg, Next(cfg, s, ops[0]), ops[1..], ops[0].now, last);
    }
  }

  lemma TimedBound(ops: seq<BucketOp>, now: int, last: int)
    requires ops != [] && Timed(ops, now, last)
    ensures now <= ops[0].now <= last
  {
  }

  /** Whole intervals that may start within (first, last], counted generously. */
  function Ceil(x: int, d: int): (r: int)
    requires d >= 1
  {
    -((-x) / d)
  }

  /** Starting from any state, the run admits at most a full bucket plus the refills after the first tick. */
  lemma {:induction false} RunFromAnyState(cfg: Strategy, s: Option<KeyState>, ops: seq<BucketOp>, first: int,
      last: int)
    requires Sound(cfg, s, first) && Timed(ops, first, last) && s.Some?
    ensures Admitted(cfg, s, ops)
            <= cfg.bucketSize + cfg.tokensPerInterval * ((last - Refill(cfg, s.value, first).lastRefill) / cfg.interval)
    decreases |ops|, 0
  {
    var b := Refill(cfg, s.value, first);
    RefillLands(cfg, s.value, first);
    RefillWithinBudget(cfg, s.value, first, last);
    if ops == [] {
      RunWithinBudget(cfg, Some(b), ops, first, last);
    } else {
      TimedBound(ops, first, last);
      if ops[0].Take? {
        RefillTwice(cfg, s.value, first, ops[0].now);
        assert Admitted(cfg, s, ops) == Admitted(cfg, Some(b), ops);
        RunWithinBudget(cfg, Some(b), ops, first, last);
      } else if Next(cfg, s, ops[0]) == None {
        RunWithinBudget(cfg, None, ops[1..], ops[0].now, last);
        DivMonotone(last - ops[0].now, last - b.lastRefill, cfg.interval);
        TimesMonotone((last - ops[0].now) / cfg.interval, (last - b.lastRefill) / cfg.interval, cfg.tokensPerInterval);
      } else {
        RunFromLater(cfg, s, ops[1..], first, ops[0].now, last);
      }
    }
  }

  lemma {:induction false} RunFromLater(cfg: Strategy, s: Option<KeyState>, ops: seq<BucketOp>, first: int,
      second: int, last: int)
    requires Sound(cfg, s, first) && Timed(ops, second, last) && s.Some? && first <= second
    ensures Admitted(cfg, s, ops)
            <= cfg.bucketSize + cfg.tokensPerInterval * ((last - Refill(cfg, s.value, first).lastRefill) / cfg.interval)
    decreases |ops|, 1
  {
    RunFromAnyState(cfg, s, ops, second, last);
    var a, b := Refill(cfg, s.value, first), Refill(cfg, s.value, second);
    RefillTwice(cfg, s.value, first, second);
    RefillLands(cfg, s.value, first);
    RefillLands(cfg, a, second);
    DivMonotone(last - b.lastRefill, last - a.lastRefill, cfg.interval);
    TimesMonotone((last - b.lastRefill) / cfg.interval, (last - a.lastRefill) / cfg.interval, cfg.tokensPerInterval);
  }

  /**
   Between any times of a key's life the admitted cost is at most
   bucketSize + tokensPerInterval * ceil(elapsed / interval).
   */
  lemma AdmittedWithinRefills(cfg: Strategy, s: Option<KeyState>, ops: seq<BucketOp>, first: int, last: int)
    requires Sound(cfg, s, first) && Timed(ops, first, last)
    ensures Admitted(cfg, s, ops) <= cfg.bucketSize + cfg.tokensPerInterval * Ceil(last - first, cfg.interval)
  {
    var lattice := if s.Some? then Refill(cfg, s.value, first).lastRefill else first;
    if s.Some? {
      RunFromAnyState(cfg, s, ops, first, last);
      RefillLands(cfg, s.value, first);
    } else {
      RunWithinBudget(cfg, s, ops, first, last);
    }
    FloorBelowCeil(last - lattice, last - first, cfg.interval);
    TimesMonotone((last - lattice) / cfg.interval, Ceil(last - first, cfg.interval), cfg.tokensPerInterval);
  }

  lemma FloorBelowCeil(x: int, y: int, d: int)
    requires d >= 1 && x < y + d
    ensures x / d <= Ceil(y, d)
  {
    var q, c := x / d, Ceil(y, d);
    assert q * d <= x;
    assert c * d == -((-y) / d * d) >= y;
    assert (q - c) * d == q * d - c * d;
    MultipleIsFar(q - c, d);
  }

  /** Every step keeps the tokens between empty and full, whatever the state it starts from. */
  lemma {:induction false} TokensStayInBucket(cfg: Strategy, s: Option<KeyState>, ops: seq<BucketOp>, first: int,
      last: int)
    requires Sound(cfg, s, first) && Timed(ops, first, last)
    ensures Sound(cfg, After(cfg, s, ops), last)
    decreases |ops|
  {
    if ops != [] {
      TimedBound(ops, first, last);
      StepWithinBudget(cfg, s, ops[0], first, last);
      TokensStayInBucket(cfg, Next(cfg, s, ops[0]), ops[1..], ops[0].now, last);
    }
  }

  ghost function After(cfg: Strategy, s: Option<KeyState>, ops: seq<BucketOp>): (r: Option<KeyState>)
    requires cfg.Valid() && cfg.TokenBucket? && MatchesOption(cfg, s)
    ensures MatchesOption(cfg, r)
    decreases |ops|
  {
    if ops == [] then s else After(cfg, Next(cfg, s, ops[0]), ops[1..])
  }
}
