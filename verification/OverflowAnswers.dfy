/**
 What mode `overflow` tells its caller, from the counts that the two stores held before: who is
 let through, by which layer, with what figures, and what the call leaves behind.
 */
module OverflowAnswers {
  import opened Entries
  import opened EntryLaws
  import opened MemoryTable
  import opened Composition
  import opened Overflow

  ghost predicate Windows(cfg: Setup) {
    !cfg.primary.strategy.TokenBucket? && !cfg.burst.strategy.TokenBucket?
  }

  /** Units of the key that a window store holds against its cap. */
  ghost function Held(lim: Limits, m: Mem, k: Key, now: int): (n: int)
    requires Ok(lim, m) && !lim.strategy.TokenBucket?
  {
    OkEntry(lim, m, k);
    LiveCount(lim.strategy, Lookup(m, k), now)
  }

  ghost function EndOf(lim: Limits, m: Mem, k: Key, now: int): (t: int)
    requires Ok(lim, m) && !lim.strategy.TokenBucket?
  {
    OkEntry(lim, m, k);
    ResetOf(lim.strategy, Lookup(m, k), now)
  }

  /** One layer: the figures of its answer, and the count it is left with. */
  lemma LayerAnswers(lim: Limits, m: Mem, k: Key, own: Option<int>, asked: Option<int>, n: Cost, now: int)
    requires Ok(lim, m) && !lim.strategy.TokenBucket?
    ensures var (next, r) := IncrementKey(lim, m, k, CapOf(own, asked), n, now);
            var (hits, cap) := (Held(lim, m, k, now) + n, HeldCap(lim.strategy, own, asked));
            && Ok(lim, next) && Held(lim, next, k, now) == hits
            && r == Result(hits, if hits > cap then 0 else cap - hits, EndOf(lim, m, k, now), hits > cap)
  {
    var cap := CapOf(own, asked);
    IncrementKeyOk(lim, m, k, cap, n, now);
    IncrementedEntry(lim, m, k, cap, n, now);
    IncrementCharges(lim.strategy, Lookup(m, k), cap, n, now);
    HeldCapIs(lim.strategy, own, asked);
    ResetIsOf(lim.strategy, Lookup(m, k), cap, n, now);
    hide Ok, IncrementKey, LiveCount, HeldCap, CapFor, CapOf, Increment, ResetOf;
  }

  /** A request is blocked exactly when the charged count passes the cap in both stores. */
  lemma AnswersFromCounts(cfg: Setup, s: Pair, k: Key, asked: Option<int>, n: Cost, now: int)
    requires OkPair(cfg, s) && Windows(cfg)
    ensures var (pk, bk) := (cfg.primaryKey(k), cfg.burstKey(k));
            var (p, b) := (Held(cfg.primary, s.primary, pk, now) + n, Held(cfg.burst, s.burst, bk, now) + n);
            var pCap := HeldCap(cfg.primary.strategy, cfg.primaryCap, asked);
            var bCap := HeldCap(cfg.burst.strategy, cfg.burstCap, asked);
            var (pEnd, bEnd) := (EndOf(cfg.primary, s.primary, pk, now), EndOf(cfg.burst, s.burst, bk, now));
            var r := Called(cfg, s, k, asked, n, now).1;
            && (r.isBlocked <==> p > pCap && b > bCap)
            && r.totalHits == (if p > pCap && b > bCap && b > p then b else p)
            && r.remaining == (if p <= pCap then pCap - p else if b <= bCap then bCap - b else 0)
            && r.resetTime == (if p <= pCap || pEnd <= bEnd then pEnd else bEnd)
  {
    LayerAnswers(cfg.primary, s.primary, cfg.primaryKey(k), cfg.primaryCap, asked, n, now);
    LayerAnswers(cfg.burst, s.burst, cfg.burstKey(k), cfg.burstCap, asked, n, now);
    hide Ok, IncrementKey, Held, EndOf, HeldCap, CapOf, PushFrame;
  }

  /**
   The primary always keeps the charge; the burst store is charged when the primary blocks. A frame that names the
   consumer is pushed exactly for a request that was let through.
   */
  lemma ChargesFromCounts(cfg: Setup, s: Pair, k: Key, asked: Option<int>, n: Cost, now: int)
    requires OkPair(cfg, s) && Windows(cfg)
    ensures var (pk, bk) := (cfg.primaryKey(k), cfg.burstKey(k));
            var (p, b) := (Held(cfg.primary, s.primary, pk, now), Held(cfg.burst, s.burst, bk, now));
            var pIn := p + n <= HeldCap(cfg.primary.strategy, cfg.primaryCap, asked);
            var bIn := b + n <= HeldCap(cfg.burst.strategy, cfg.burstCap, asked);
            var next := Called(cfg, s, k, asked, n, now).0;
            && Held(cfg.primary, next.primary, pk, now) == p + n
            && Held(cfg.burst, next.burst, bk, now) == b + (if pIn then 0 else n)
            && FramesOf(next.frames, k) == FramesOf(s.frames, k) + (if pIn then [0] else if bIn then [1] else [])
            && forall x :: x != k ==> FramesOf(next.frames, x) == FramesOf(s.frames, x)
  {
    LayerAnswers(cfg.primary, s.primary, cfg.primaryKey(k), cfg.primaryCap, asked, n, now);
    LayerAnswers(cfg.burst, s.burst, cfg.burstKey(k), cfg.burstCap, asked, n, now);
    hide Ok, IncrementKey, Held, EndOf, HeldCap, CapOf, BurstResult;
    assert FramesOf(s.frames, k) + [] == FramesOf(s.frames, k);
  }
}
