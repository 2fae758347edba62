/**
 Per-key quota state of the in-process store and the arithmetic of its three
 strategies: sliding window, fixed window and token bucket.

 Every clock reading is a parameter (integer milliseconds).
 */
module Entries {

  datatype Option<+T> = None | Some(value: T)

  /** A rate limit key, as the stores see it. */
  datatype Key = Key(name: string)

  /** One strategy per store. */
  datatype Strategy =
    | SlidingWindow(windowMs: int, maxRequests: int)
    | FixedWindow(windowMs: int, maxRequests: int)
    | TokenBucket(tokensPerInterval: int, interval: int, bucketSize: int)
  {
    predicate Valid() {
      match this
      case TokenBucket(perInterval, ms, size) => perInterval >= 0 && ms >= 1 && size >= 0
      case _ => windowMs >= 1 && maxRequests >= 1
    }
  }

  datatype KeyState =
    | Sliding(stamps: seq<int>, wall: Option<int>)
    | Fixed(count: int, resetTime: int)
    | Bucket(tokens: int, lastRefill: int)

  predicate Matches(cfg: Strategy, s: KeyState) {
    match cfg
    case SlidingWindow(_, _) => s.Sliding?
    case FixedWindow(_, _) => s.Fixed?
    case TokenBucket(_, _, _) => s.Bucket?
  }

  predicate MatchesOption(cfg: Strategy, s: Option<KeyState>) {
    s.Some? ==> Matches(cfg, s.value)
  }

  datatype Result = Result(totalHits: int, remaining: int, resetTime: int, isBlocked: bool)

  /** Integers >= 1 pass, everything else becomes the fallback. */
  function Sanitize(value: int, fallback: int): (r: int)
    ensures fallback >= 1 ==> r >= 1
  {
    if value >= 1 then value else fallback
  }

  /** Units charged by one call. */
  type Cost = n: int | n >= 1 witness 1

  function CostOf(value: int): (n: Cost) {
    Sanitize(value, 1)
  }

  function CapFor(cfg: Strategy, override: Option<int>): (cap: int)
    requires cfg.Valid() && !cfg.TokenBucket?
    ensures cap >= 1
  {
    Sanitize(if override.Some? then override.value else cfg.maxRequests, cfg.maxRequests)
  }

  function Max(a: int, b: int): int { if a >= b then a else b }

  function Min(a: int, b: int): int { if a <= b then a else b }

  // ----- stamps -------------------------------------------------------------

  /** The stamps later than `cutoff`, in order. */
  function Cut(stamps: seq<int>, cutoff: int): (live: seq<int>)
    ensures |live| <= |stamps|
    ensures forall i :: 0 <= i < |live| ==> live[i] > cutoff
  {
    if stamps == [] then []
    else if stamps[0] > cutoff then [stamps[0]] + Cut(stamps[1..], cutoff)
    else Cut(stamps[1..], cutoff)
  }

  function Repeat(at: int, n: nat): (r: seq<int>)
    ensures |r| == n && forall i :: 0 <= i < n ==> r[i] == at
  {
    seq(n, _ => at)
  }

  lemma {:induction false} CutConcat(a: seq<int>, b: seq<int>, cutoff: int)
    ensures Cut(a + b, cutoff) == Cut(a, cutoff) + Cut(b, cutoff)
  {
    if a == [] {
      assert a + b == b;
    } else {
      assert (a + b)[1..] == a[1..] + b;
      CutConcat(a[1..], b, cutoff);
    }
  }

  lemma {:induction false} CutKeepsLater(s: seq<int>, cutoff: int)
    requires forall i :: 0 <= i < |s| ==> s[i] > cutoff
    ensures Cut(s, cutoff) == s
  {
    if s != [] {
      CutKeepsLater(s[1..], cutoff);
    }
  }

  lemma {:induction false} CutDropsEarlier(s: seq<int>, cutoff: int)
    requires forall i :: 0 <= i < |s| ==> s[i] <= cutoff
    ensures Cut(s, cutoff) == []
  {
    if s != [] {
      CutDropsEarlier(s[1..], cutoff);
    }
  }

  /** Trimming early never changes a later trim. */
  lemma {:induction false} CutCut(s: seq<int>, first: int, second: int)
    requires first <= second
    ensures Cut(Cut(s, first), second) == Cut(s, second)
  {
    if s != [] {
      CutCut(s[1..], first, second);
      if s[0] > first {
        assert Cut(s, first)[1..] == Cut(s[1..], first);
      }
    }
  }

  /** How many stamps lie in the half-open interval (lo, hi]. */
  function CountIn(stamps: seq<int>, lo: int, hi: int): (n: nat) {
    if stamps == [] then 0
    else CountIn(stamps[1..], lo, hi) + if lo < stamps[0] <= hi then 1 else 0
  }

  lemma {:induction false} CountInConcat(a: seq<int>, b: seq<int>, lo: int, hi: int)
    ensures CountIn(a + b, lo, hi) == CountIn(a, lo, hi) + CountIn(b, lo, hi)
  {
    if a == [] {
      assert a + b == b;
    } else {
      assert (a + b)[1..] == a[1..] + b;
      CountInConcat(a[1..], b, lo, hi);
    }
  }

  lemma {:induction false} CountInRepeat(at: int, n: nat, lo: int, hi: int)
    ensures CountIn(Repeat(at, n), lo, hi) == if lo < at <= hi then n else 0
  {
    if n > 0 {
      assert Repeat(at, n)[1..] == Repeat(at, n - 1);
      CountInRepeat(at, n - 1, lo, hi);
    }
  }

  lemma {:induction false} CountInIsCut(stamps: seq<int>, lo: int, hi: int)
    requires forall i :: 0 <= i < |stamps| ==> stamps[i] <= hi
    ensures CountIn(stamps, lo, hi) == |Cut(stamps, lo)|
  {
    if stamps != [] {
      CountInIsCut(stamps[1..], lo, hi);
    }
  }

  lemma {:induction false} CountInShrinks(stamps: seq<int>, lo: int, hi: int, lo2: int, hi2: int)
    requires lo <= lo2 && (hi2 <= hi || forall i :: 0 <= i < |stamps| ==> stamps[i] <= hi)
    ensures CountIn(stamps, lo2, hi2) <= CountIn(stamps, lo, hi)
  {
    if stamps != [] {
      CountInShrinks(stamps[1..], lo, hi, lo2, hi2);
    }
  }

  // ----- token bucket -------------------------------------------------------

  /** Refill in whole intervals; a clock behind `lastRefill` refills nothing. */
  function Refill(cfg: Strategy, b: KeyState, now: int): (r: KeyState)
    requires cfg.Valid() && cfg.TokenBucket? && b.Bucket?
    ensures r.Bucket?
  {
    var intervals := (now - b.lastRefill) / cfg.interval;
    if intervals > 0 then
      Bucket(Min(cfg.bucketSize, b.tokens + intervals * cfg.tokensPerInterval),
             b.lastRefill + intervals * cfg.interval)
    else b
  }

  predicate IdleFull(cfg: Strategy, b: KeyState, now: int)
    requires cfg.TokenBucket? && b.Bucket?
  {
    b.tokens >= cfg.bucketSize && now - b.lastRefill > 10 * cfg.interval
  }

  // ----- one key, all strategies ---------------------------------------------

  predicate WallExpired(s: KeyState, now: int) {
    s.Sliding? && s.wall.Some? && now >= s.wall.value
  }

  /** Quota state that no longer limits anything: such a head is dropped before any live key. */
  predicate EntryExpired(cfg: Strategy, s: KeyState, now: int)
    requires Matches(cfg, s)
  {
    match cfg
    case SlidingWindow(w, _) => WallExpired(s, now) || Cut(s.stamps, now - w) == []
    case FixedWindow(_, _) => now >= s.resetTime
    case TokenBucket(_, _, _) => IdleFull(cfg, s, now)
  }

  /** The key's state before an increment at `now`: a wall-expired sliding entry counts as absent. */
  function Current(s: Option<KeyState>, now: int): (r: Option<KeyState>) {
    if s.Some? && WallExpired(s.value, now) then None else s
  }

  function WindowResult(total: int, cap: int, resetTime: int): (r: Result) {
    Result(total, if total > cap then 0 else Max(0, cap - total), resetTime, total > cap)
  }

  function SlidingIncrement(w: int, cap: int, s: Option<KeyState>, n: Cost, now: int): (r: (KeyState, Result))
    requires s.Some? ==> s.value.Sliding?
  {
    var cur := Current(s, now);
    var stamps := Cut(if cur.Some? then cur.value.stamps else [], now - w) + Repeat(now, n);
    (Sliding(stamps, None), WindowResult(|stamps|, cap, stamps[0] + w))
  }

  function FixedIncrement(w: int, cap: int, s: Option<KeyState>, n: Cost, now: int): (r: (KeyState, Result))
    requires s.Some? ==> s.value.Fixed?
  {
    var next := if s.None? || now >= s.value.resetTime then Fixed(n, now + w)
                else Fixed(s.value.count + n, s.value.resetTime);
    (next, WindowResult(next.count, cap, next.resetTime))
  }

  function BucketIncrement(cfg: Strategy, s: Option<KeyState>, n: Cost, now: int): (r: (KeyState, Result))
    requires cfg.Valid() && cfg.TokenBucket? && MatchesOption(cfg, s)
  {
    var size := cfg.bucketSize;
    var b := Refill(cfg, if s.None? then Bucket(size, now) else s.value, now);
    if b.tokens >= n then
      (Bucket(b.tokens - n, b.lastRefill),
        Result(size - (b.tokens - n), b.tokens - n, b.lastRefill + cfg.interval, false))
    else
      (b, Result(size, 0, b.lastRefill + cfg.interval, true))
  }

  /** One increment of `n` units at `now`. */
  function Increment(cfg: Strategy, s: Option<KeyState>, override: Option<int>, n: Cost, now: int)
    : (r: (KeyState, Result))
    requires cfg.Valid() && MatchesOption(cfg, s)
    ensures Matches(cfg, r.0)
  {
    match cfg
    case SlidingWindow(w, _) => SlidingIncrement(w, CapFor(cfg, override), s, n, now)
    case FixedWindow(w, _) => FixedIncrement(w, CapFor(cfg, override), s, n, now)
    case TokenBucket(_, _, _) => BucketIncrement(cfg, s, n, now)
  }

  /** Give back `n` units; `None` means that the key is deleted. */
  function Decrement(cfg: Strategy, s: KeyState, n: Cost, removeNewest: bool): (r: Option<KeyState>)
    requires cfg.Valid() && Matches(cfg, s)
    ensures MatchesOption(cfg, r)
  {
    match cfg
    case SlidingWindow(_, _) =>
      var k := Min(n, |s.stamps|);
      var rest := if removeNewest then s.stamps[..|s.stamps| - k] else s.stamps[k..];
      if s.stamps == [] then Some(s) else if rest == [] then None else Some(s.(stamps := rest))
    case FixedWindow(_, _) =>
      if s.count <= 0 then Some(s) else if s.count - n <= 0 then None else Some(s.(count := s.count - n))
    case TokenBucket(_, _, size) =>
      Some(s.(tokens := Min(size, s.tokens + n)))
  }

  function DecrementOption(cfg: Strategy, s: Option<KeyState>, n: Cost, removeNewest: bool): (r: Option<KeyState>)
    requires cfg.Valid() && MatchesOption(cfg, s)
    ensures MatchesOption(cfg, r)
  {
    if s.None? then None else Decrement(cfg, s.value, n, removeNewest)
  }

  /** Units a window entry holds against the cap at `now`. */
  function LiveCount(cfg: Strategy, s: Option<KeyState>, now: int): (n: int)
    requires MatchesOption(cfg, s) && !cfg.TokenBucket?
  {
    var cur := Current(s, now);
    if cur.None? then 0
    else if cfg.SlidingWindow? then |Cut(cur.value.stamps, now - cfg.windowMs)|
    else if now >= cur.value.resetTime then 0 else cur.value.count
  }

  /** The live stamps of a sliding entry at `now`. */
  function LiveStamps(cfg: Strategy, s: Option<KeyState>, now: int): (live: seq<int>)
    requires MatchesOption(cfg, s) && cfg.SlidingWindow?
  {
    var cur := Current(s, now);
    Cut(if cur.Some? then cur.value.stamps else [], now - cfg.windowMs)
  }
}
