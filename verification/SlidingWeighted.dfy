/**
 The weighted sub-window model of a sliding window: two counters and a linear weight
 stand for the exact history. Exact counters, and how far the estimate can be off.
 */
module SlidingWeighted {
  import opened Entries

  datatype Weighted = Weighted(currentWindowStart: int, currentCount: int, previousCount: int)

  /** Start of the fixed slice that contains `now`. */
  function Boundary(now: int, w: int): (b: int)
    requires w >= 1
    ensures b <= now < b + w
  {
    now / w * w
  }

  /** Weight of the previous slice: 1 at the start of the current one, 0 at its end. */
  function Weight(now: int, w: int, start: int): (r: real)
    requires w >= 1
    ensures 0.0 <= r <= 1.0
  {
    var elapsed := now - start;
    if elapsed <= 0 then 1.0
    else if elapsed >= w then 0.0
    else
      FractionInUnit(elapsed, w);
      1.0 - elapsed as real / w as real
  }

  lemma FractionInUnit(a: int, b: int)
    requires 0 < a < b
    ensures 0.0 <= a as real / b as real <= 1.0
  {
    var q := a as real / b as real;
    assert q * b as real == a as real;
  }

  /** A slice starts at a multiple of the window, and is the only one that contains `now`. */
  lemma BoundaryIsSlice(now: int, w: int, i: int)
    requires w >= 1
    ensures i * w <= now < i * w + w <==> i * w == Boundary(now, w)
  {
    Gap(now / w, i, w);
  }

  /** The weight falls linearly from 1 to 0 over the slice, and stays there. */
  lemma WeightIsLinear(now: int, w: int, start: int)
    requires w >= 1
    ensures start <= now <= start + w ==> Weight(now, w, start) * w as real == (start + w - now) as real
    ensures now <= start ==> Weight(now, w, start) == 1.0
    ensures start + w <= now ==> Weight(now, w, start) == 0.0
  {
    if start < now < start + w {
      var q := (now - start) as real / w as real;
      assert q * w as real == (now - start) as real;
      assert (1.0 - q) * w as real == w as real - q * w as real;
    }
  }

  function WeightedCount(s: Weighted, now: int, w: int): (r: real)
    requires w >= 1
  {
    s.previousCount as real * Weight(now, w, s.currentWindowStart) + s.currentCount as real
  }

  /** One increment of the model. */
  function Simulate(s: Option<Weighted>, now: int, w: int, cost: int): (r: Weighted)
    requires w >= 1
    ensures r.currentWindowStart == Boundary(now, w)
  {
    var b := Boundary(now, w);
    if s.None? then Weighted(b, cost, 0)
    else if s.value.currentWindowStart == b then s.value.(currentCount := s.value.currentCount + cost)
    else if s.value.currentWindowStart + w == b then Weighted(b, cost, s.value.currentCount)
    else Weighted(b, cost, 0)
  }

  // ----- runs of a single writer ------------------------------------------------------

  datatype Hit = Hit(at: int, cost: Cost)

  function Run(hits: seq<Hit>, w: int): (s: Option<Weighted>)
    requires w >= 1
    ensures s.None? <==> hits == []
  {
    if hits == [] then None
    else Some(Simulate(Run(hits[..|hits| - 1], w), hits[|hits| - 1].at, w, hits[|hits| - 1].cost))
  }

  /** Cost of the hits in [lo, hi). */
  function HitsIn(hits: seq<Hit>, lo: int, hi: int): (n: nat) {
    if hits == [] then 0
    else HitsIn(hits[..|hits| - 1], lo, hi) + if lo <= hits[|hits| - 1].at < hi then hits[|hits| - 1].cost else 0
  }

  /** The clock does not run backwards. */
  predicate Ordered(hits: seq<Hit>) {
    |hits| < 2 || (Ordered(hits[..|hits| - 1]) && hits[|hits| - 2].at <= hits[|hits| - 1].at)
  }

  lemma {:induction false} OrderedBelow(hits: seq<Hit>, i: nat)
    requires Ordered(hits) && i < |hits|
    ensures hits[i].at <= hits[|hits| - 1].at
  {
    if i < |hits| - 1 {
      OrderedBelow(hits[..|hits| - 1], i);
    }
  }

  lemma {:induction false} NoHitsFrom(hits: seq<Hit>, lo: int, hi: int)
    requires forall i :: 0 <= i < |hits| ==> hits[i].at < lo
    ensures HitsIn(hits, lo, hi) == 0
  {
    if hits != [] {
      NoHitsFrom(hits[..|hits| - 1], lo, hi);
    }
  }

  lemma MultiplesOrdered(i: int, j: int, w: int)
    requires w >= 1 && i <= j
    ensures i * w <= j * w
  {
  }

  lemma Gap(i: int, j: int, w: int)
    requires w >= 1
    ensures j < i ==> j * w + w <= i * w
    ensures j > i ==> i * w + w <= j * w
    ensures j > i + 1 ==> i * w + w + w <= j * w
  {
    if j < i {
      MultiplesOrdered(j + 1, i, w);
    } else if j > i + 1 {
      MultiplesOrdered(i + 2, j, w);
    }
  }

  /** Slices do not overlap: a later one is the same, the next, or at least one further. */
  lemma BoundariesApart(a: int, b: int, w: int)
    requires w >= 1 && a <= b
    ensures var d := Boundary(b, w) - Boundary(a, w);
            d == 0 || d == w || d >= w + w
  {
    var i, j := a / w, b / w;
    Gap(i, j, w);
    Gap(i, i + 1, w);
    if j == i + 1 {
      assert j * w == i * w + w;
    }
  }

  /** The two counters are the exact hit counts of the current and the preceding slice. */
  lemma {:induction false} CountersExact(hits: seq<Hit>, w: int)
    requires w >= 1 && Ordered(hits) && hits != []
    ensures var s := Run(hits, w).value;
            && s.currentWindowStart == Boundary(hits[|hits| - 1].at, w)
            && s.currentCount == HitsIn(hits, s.currentWindowStart, s.currentWindowStart + w)
            && s.previousCount == HitsIn(hits, s.currentWindowStart - w, s.currentWindowStart)
  {
    var init, h := hits[..|hits| - 1], hits[|hits| - 1];
    var b := Boundary(h.at, w);
    if init != [] {
      CountersExact(init, w);
      var s := Run(init, w).value;
      var prev := init[|init| - 1].at;
      BoundariesApart(prev, h.at, w);
      forall i | 0 <= i < |init| ensures init[i].at < s.currentWindowStart + w {
        OrderedBelow(init, i);
      }
      if s.currentWindowStart + w <= b {
        NoHitsFrom(init, b, b + w);
        if s.currentWindowStart + w < b {
          NoHitsFrom(init, b - w, b);
        }
      }
    }
  }

  // ----- the estimate --------------------------------------------------------------------

  /** Exact cost in the sliding window (now - w, now]. */
  function SlidingCount(hits: seq<Hit>, now: int, w: int): (n: nat) {
    HitsIn(hits, now - w + 1, now + 1)
  }

  lemma {:induction false} SlidingBetween(hits: seq<Hit>, now: int, w: int, start: int)
    requires w >= 1 && start <= now < start + w && forall i :: 0 <= i < |hits| ==> hits[i].at <= now
    ensures HitsIn(hits, start, start + w) <= SlidingCount(hits, now, w)
            <= HitsIn(hits, start, start + w) + HitsIn(hits, start - w, start)
  {
    if hits != [] {
      SlidingBetween(hits[..|hits| - 1], now, w, start);
    }
  }

  /**
   From the last hit to the end of its slice, at a hit or at a read, the estimate is off by at most the
   unweighted part of the previous slice below, the weighted part above.
   */
  lemma EstimateWithin(hits: seq<Hit>, w: int, now: int)
    requires w >= 1 && Ordered(hits) && hits != []
    requires hits[|hits| - 1].at <= now < Run(hits, w).value.currentWindowStart + w
    ensures var s := Run(hits, w).value;
            var weight, previous := Weight(now, w, s.currentWindowStart), s.previousCount as real;
            var error := WeightedCount(s, now, w) - SlidingCount(hits, now, w) as real;
            -((1.0 - weight) * previous) <= error <= weight * previous
  {
    hide Weight, HitsIn, Run, SlidingCount;
    CountersExact(hits, w);
    var s := Run(hits, w).value;
    forall i | 0 <= i < |hits| ensures hits[i].at <= now {
      OrderedBelow(hits, i);
    }
    SlidingBetween(hits, now, w, s.currentWindowStart);
    ErrorOf(Weight(now, w, s.currentWindowStart), s.previousCount, s.currentCount, SlidingCount(hits, now, w));
  }

  lemma {:induction false} HitsInNarrow(hits: seq<Hit>, lo: int, hi: int, lo2: int, hi2: int)
    requires lo2 <= lo && forall i :: 0 <= i < |hits| && hits[i].at >= lo ==> hits[i].at < hi2
    ensures HitsIn(hits, lo, hi) <= HitsIn(hits, lo2, hi2)
  {
    if hits != [] {
      HitsInNarrow(hits[..|hits| - 1], lo, hi, lo2, hi2);
    }
  }

  /**
   Read in the slice after, before anybody hits it, the estimate is the whole count of the last slice: never too
   low, too high by at most that count. From then on no hit is in the window, and a read finds nothing.
   */
  lemma EstimateAfterSlice(hits: seq<Hit>, w: int, now: int)
    requires w >= 1 && Ordered(hits) && hits != [] && Run(hits, w).value.currentWindowStart + w <= now
    ensures var s := Run(hits, w).value;
            && WeightedCount(s, now, w) == s.currentCount as real && SlidingCount(hits, now, w) <= s.currentCount
            && (s.currentWindowStart + w + w <= now ==> SlidingCount(hits, now, w) == 0)
  {
    hide HitsIn, Run;
    CountersExact(hits, w);
    var s := Run(hits, w).value;
    var b := s.currentWindowStart;
    forall i | 0 <= i < |hits| ensures hits[i].at < b + w {
      OrderedBelow(hits, i);
    }
    HitsInNarrow(hits, now - w + 1, now + 1, b, b + w);
    if b + w + w <= now {
      NoHitsFrom(hits, now - w + 1, now + 1);
    }
  }

  lemma ErrorOf(weight: real, previous: int, current: int, exact: int)
    requires 0.0 <= weight <= 1.0 && current <= exact <= current + previous
    ensures var error := (previous as real * weight + current as real) - exact as real;
            -((1.0 - weight) * previous as real) <= error <= weight * previous as real
  {
    var p := previous as real;
    assert -(1.0 - weight) * p == weight * p - p;
  }

  /** So an increment that passes the cap on the estimate never exceeds it by more than the unweighted part. */
  lemma AdmittedWithinEstimate(hits: seq<Hit>, w: int, cap: int)
    requires w >= 1 && Ordered(hits) && hits != []
    requires WeightedCount(Run(hits, w).value, hits[|hits| - 1].at, w) <= cap as real
    ensures var (s, now) := (Run(hits, w).value, hits[|hits| - 1].at);
            SlidingCount(hits, now, w) as real
              <= cap as real + (1.0 - Weight(now, w, s.currentWindowStart)) * s.previousCount as real
  {
    hide Weight, HitsIn, Run, SlidingCount, WeightedCount;
    LastInSlice(hits, w);
    EstimateWithin(hits, w, hits[|hits| - 1].at);
    var (s, now) := (Run(hits, w).value, hits[|hits| - 1].at);
    Rearranged(WeightedCount(s, now, w), SlidingCount(hits, now, w) as real,
               (1.0 - Weight(now, w, s.currentWindowStart)) * s.previousCount as real, cap as real);
  }

  lemma LastInSlice(hits: seq<Hit>, w: int)
    requires w >= 1 && Ordered(hits) && hits != []
    ensures Run(hits, w).value.currentWindowStart <= hits[|hits| - 1].at < Run(hits, w).value.currentWindowStart + w
  {
    CountersExact(hits, w);
  }

  lemma Rearranged(estimate: real, exact: real, slack: real, cap: real)
    requires estimate <= cap && -slack <= estimate - exact
    ensures exact <= cap + slack
  {
  }

  // ----- the answer ------------------------------------------------------------------------

  function Ceiling(x: real): (n: int)
    ensures n as real - 1.0 < x <= n as real
  {
    -((-x).Floor)
  }

  /** What the caller is told, from the counters its write left and its own clock. */
  function ResultOf(s: Weighted, now: int, w: int, cap: int): (r: Result)
    requires w >= 1
  {
    var raw := WeightedCount(s, now, w);
    Result(Ceiling(raw), Max(0, cap - Ceiling(raw)), s.currentWindowStart + w, raw > cap as real)
  }

  /**
   After any single-writer run: the answer to the last hit, measured against the exact history. It reports at most
   one more than the weighted part of the previous slice too much, at most the unweighted part too little; an allowed
   hit is over the cap by at most the unweighted part, a blocked one is above the cap less the weighted part.
   */
  lemma AnswerAgainstHistory(hits: seq<Hit>, w: int, cap: int)
    requires w >= 1 && cap >= 0 && Ordered(hits) && hits != []
    ensures var (s, now) := (Run(hits, w).value, hits[|hits| - 1].at);
            var r := ResultOf(s, now, w, cap);
            var (weight, previous) := (Weight(now, w, s.currentWindowStart), s.previousCount as real);
            var exact := SlidingCount(hits, now, w) as real;
            && now < r.resetTime <= now + w
            && (r.isBlocked <==> r.totalHits > cap)
            && r.remaining == (if r.isBlocked then 0 else cap - r.totalHits)
            && exact - (1.0 - weight) * previous <= r.totalHits as real < exact + weight * previous + 1.0
            && (!r.isBlocked ==> exact <= cap as real + (1.0 - weight) * previous)
            && (r.isBlocked ==> exact > cap as real - weight * previous)
  {
    hide Weight, HitsIn, Run, SlidingCount, WeightedCount, Ceiling;
    LastInSlice(hits, w);
    var (s, now) := (Run(hits, w).value, hits[|hits| - 1].at);
    EstimateWithin(hits, w, now);
    AboveInt(Ceiling(WeightedCount(s, now, w)), WeightedCount(s, now, w), cap);
  }

  lemma AboveInt(n: int, x: real, cap: int)
    requires n as real - 1.0 < x <= n as real
    ensures x > cap as real <==> n > cap
  {
  }
}
