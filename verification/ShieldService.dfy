/**
 What the shield saves: which requests the cache answers, for how long, and who gives way when
 it is full.
 */
module ShieldService {
  import opened Entries
  import opened MemoryTable
  import opened ShieldSpec

  /** Until when a block reported at `now` is cached. */
  function BlockedUntil(opts: Options, res: Result, now: int): (t: int) {
    match opts.blockDurationMs
    case Some(ms) => if ms > 0 then now + ms else res.resetTime
    case None => res.resetTime
  }

  /**
   After a request that the store answered, the next one for the same key is answered by the cache exactly when the
   first had used up the quota and its block has not ended: blocked, with the figures of the first, at no cost to the
   store.
   */
  lemma CacheAnswersIff(lim: Limits, opts: Options, s: Shield, k: Key, a: Option<int>, n: Cost, now: int,
      b: Option<int>, n2: Cost, at: int)
    requires Ok(lim, s.inner) && CacheOk(s) && !Live(s, k, now)
    ensures var (r, res, _) := Incremented(lim, opts, s, k, a, n, now);
            var (r2, res2, shielded) := Incremented(lim, opts, r, k, b, n2, at);
            && (shielded <==> res.totalHits >= opts.blockOnConsumed && at < BlockedUntil(opts, res, now))
            && (shielded ==>
                  && r2 == r && res2.isBlocked && res2.totalHits == res.totalHits
                  && res2.remaining == Max(0, res.remaining) && res2.resetTime == res.resetTime)
            && (!shielded ==> res2 == IncrementKey(lim, r.inner, k, b, n2, at).1)
            && r.inner == IncrementKey(lim, s.inner, k, a, n, now).0
  {
    hide Ok, IncrementKey, Without;
  }

  /** A cached key gives way exactly when another one is newly blocked, the cache is full and the key is the oldest. */
  lemma GivesWayIff(lim: Limits, opts: Options, s: Shield, x: Key, a: Option<int>, n: Cost, now: int, k: Key)
    requires Ok(lim, s.inner) && CacheOk(s) && x != k && k in s.cache
    ensures var (r, res, shielded) := Incremented(lim, opts, s, x, a, n, now);
            var others := Without(s.order, x);
            && (k in r.cache ==> r.cache[k] == s.cache[k])
            && (k !in r.cache <==>
                  && !shielded && res.totalHits >= opts.blockOnConsumed
                  && opts.maxBlockedKeys > 0 && |others| >= opts.maxBlockedKeys && others != [] && others[0] == k)
  {
    WithoutMembers(s.order, x);
    hide Ok, IncrementKey, Without;
  }

  /** The cache never holds more than its bound, and what was blocked last is always in it. */
  lemma CacheStaysBounded(lim: Limits, opts: Options, s: Shield, k: Key, a: Option<int>, n: Cost, now: int)
    requires Ok(lim, s.inner) && CacheOk(s) && opts.maxBlockedKeys > 0 && |s.order| <= opts.maxBlockedKeys
    ensures var (r, res, shielded) := Incremented(lim, opts, s, k, a, n, now);
            && |r.order| <= opts.maxBlockedKeys
            && (!shielded ==> (k in r.cache <==> res.totalHits >= opts.blockOnConsumed))
  {
    var t := Unshield(s, k);
    WithoutMembers(s.order, k);
    if t.order != [] {
      WithoutMembers(t.order, t.order[0]);
    }
    hide Ok, IncrementKey, Without;
  }

  /** After a decrement the key's next request is the store's to answer. */
  lemma DecrementUnblocks(lim: Limits, opts: Options, s: Shield, k: Key, n: Cost, newest: bool, a: Option<int>,
      n2: Cost, now: int)
    requires Ok(lim, s.inner) && CacheOk(s)
    ensures var r := Decremented(lim, s, k, n, newest);
            && !Incremented(lim, opts, r, k, a, n2, now).2
            && forall x :: x != k && x in s.cache ==> x in r.cache && r.cache[x] == s.cache[x]
  {
    hide Ok, IncrementKey, DecrementKey, Without;
  }
}
