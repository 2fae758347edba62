/**
 Safety of the breaker over every interleaving of overlapping Redis calls: quiet after an
 opening, few probes, the right failures, hooks in order; and when it can never let a call
 through again.
 */
module BreakerRuns {
  import opened Entries
  import opened CircuitBreaker

  // ----- reading the log ------------------------------------------------------------------

  ghost predicate OpenedBy(log: seq<Mark>, limit: int) {
    log == [] || ((log[|log| - 1].Opened? ==> log[|log| - 1].at <= limit) && OpenedBy(log[..|log| - 1], limit))
  }

  /** Every grant comes at least the recovery time after every opening before it. */
  ghost predicate QuietAfterOpening(cfg: Settings, log: seq<Mark>) {
    log == [] ||
    (var init, last := log[..|log| - 1], log[|log| - 1];
     QuietAfterOpening(cfg, init) && (last.Granted? ==> OpenedBy(init, last.at - cfg.recoveryTimeMs)))
  }

  /** Grants since the circuit last changed state. */
  ghost function EpisodeGrants(log: seq<Mark>): (n: nat) {
    if log == [] then 0
    else
      match log[|log| - 1]
      case Granted(_) => EpisodeGrants(log[..|log| - 1]) + 1
      case HalfOpened => 0
      case Opened(_) => 0
      case Closed => 0
      case _ => EpisodeGrants(log[..|log| - 1])
  }

  /** Failures since the last success or closing. */
  ghost function Streak(log: seq<Mark>): (n: nat) {
    if log == [] then 0
    else
      match log[|log| - 1]
      case SawFailure => Streak(log[..|log| - 1]) + 1
      case SawSuccess => 0
      case Closed => 0
      case _ => Streak(log[..|log| - 1])
  }

  ghost predicate LastHookIsFailover(log: seq<Mark>) {
    log != [] && (log[|log| - 1].FailedOver? || (!log[|log| - 1].Recovered? && LastHookIsFailover(log[..|log| - 1])))
  }

  /** Failovers and recoveries take turns, failover first, and a recovery reports at least the recovery time. */
  ghost predicate HooksAlternate(cfg: Settings, log: seq<Mark>) {
    log == [] ||
    (var init, last := log[..|log| - 1], log[|log| - 1];
     && HooksAlternate(cfg, init)
     && (last.FailedOver? ==> !LastHookIsFailover(init))
     && (last.Recovered? ==> LastHookIsFailover(init) && last.downtimeMs >= cfg.recoveryTimeMs))
  }

  ghost function Threshold(cfg: Settings): (n: int) {
    Max(1, cfg.failureThreshold)
  }

  // ----- the invariant ----------------------------------------------------------------------

  ghost predicate Timely(cfg: Settings, g: Guard) {
    OpenedBy(g.log, g.clock) && (g.failoverAt.Some? ==> g.failoverAt.value <= g.clock) &&
    match g.b.state
    case CLOSED => g.failoverAt.None? && OpenedBy(g.log, g.clock - cfg.recoveryTimeMs)
    case OPEN =>
      && g.b.openedAt.Some? && g.failoverAt.Some? && g.failoverAt.value <= g.b.openedAt.value <= g.clock
      && OpenedBy(g.log, g.b.openedAt.value)
    case HALF_OPEN =>
      && g.failoverAt.Some? && g.failoverAt.value + cfg.recoveryTimeMs <= g.clock
      && OpenedBy(g.log, g.clock - cfg.recoveryTimeMs)
  }

  ghost predicate Sound(cfg: Settings, g: Guard) {
    && Timely(cfg, g) && QuietAfterOpening(cfg, g.log)
    && (g.b.state.HALF_OPEN? ==> 0 <= g.b.probes == EpisodeGrants(g.log) <= Max(0, cfg.halfOpenMaxProbes))
    && (g.b.state.CLOSED? ==> g.b.failures == Streak(g.log) < Threshold(cfg))
    && HooksAlternate(cfg, g.log) && (LastHookIsFailover(g.log) <==> !g.b.state.CLOSED?)
  }

  lemma {:induction false} OpenedByRaise(log: seq<Mark>, a: int, b: int)
    requires OpenedBy(log, a) && a <= b
    ensures OpenedBy(log, b)
  {
    if log != [] {
      OpenedByRaise(log[..|log| - 1], a, b);
    }
  }

  /** What appending one mark does to each reading. */
  lemma Snoc(cfg: Settings, log: seq<Mark>, m: Mark)
    ensures forall limit :: OpenedBy(log + [m], limit) <==> (m.Opened? ==> m.at <= limit) && OpenedBy(log, limit)
    ensures QuietAfterOpening(cfg, log + [m]) <==>
            QuietAfterOpening(cfg, log) && (m.Granted? ==> OpenedBy(log, m.at - cfg.recoveryTimeMs))
    ensures EpisodeGrants(log + [m]) == if m.Granted? then EpisodeGrants(log) + 1
                                        else if m.HalfOpened? || m.Opened? || m.Closed? then 0 else EpisodeGrants(log)
    ensures Streak(log + [m]) ==
            if m.SawFailure? then Streak(log) + 1 else if m.SawSuccess? || m.Closed? then 0 else Streak(log)
    ensures LastHookIsFailover(log + [m]) <==> m.FailedOver? || (!m.Recovered? && LastHookIsFailover(log))
    ensures HooksAlternate(cfg, log + [m]) <==> HooksAlternate(cfg, log) && (m.FailedOver? ==> !LastHookIsFailover(log))
                                                && (m.Recovered? ==>
                                                      LastHookIsFailover(log) && m.downtimeMs >= cfg.recoveryTimeMs)
  {
    assert (log + [m])[..|log|] == log;
  }

  lemma AttemptSound(cfg: Settings, g: Guard, now: int, inFlight: nat)
    requires Sound(cfg, g) && g.clock <= now
    ensures var (b, marks) := CanAttempt(cfg, g.b, now);
            Sound(cfg, Guard(b, g.failoverAt, inFlight, now, g.log + marks))
  {
    hide OpenedBy, QuietAfterOpening, EpisodeGrants, Streak, LastHookIsFailover, HooksAlternate;
    var (b, marks) := CanAttempt(cfg, g.b, now);
    OpenedByRaise(g.log, g.clock, now);
    if !g.b.state.OPEN? {
      OpenedByRaise(g.log, g.clock - cfg.recoveryTimeMs, now - cfg.recoveryTimeMs);
    } else if now >= g.b.openedAt.value + cfg.recoveryTimeMs {
      OpenedByRaise(g.log, g.b.openedAt.value, now - cfg.recoveryTimeMs);
    }
    Snoc(cfg, g.log, marks[0]);
    assert g.log + [marks[0]] + marks[1..] == g.log + marks;
    if |marks| == 2 {
      Snoc(cfg, g.log + [marks[0]], marks[1]);
      assert g.log + [marks[0]] + [marks[1]] == g.log + marks;
    } else {
      assert g.log + [marks[0]] == g.log + marks;
    }
  }

  lemma AnswerSound(cfg: Settings, g: Guard, now: int)
    requires Sound(cfg, g) && Enabled(g, RedisAnswered(now))
    ensures Sound(cfg, Step(cfg, g, RedisAnswered(now)))
  {
    hide OpenedBy, QuietAfterOpening, EpisodeGrants, Streak, LastHookIsFailover, HooksAlternate;
    OpenedByRaise(g.log, g.clock, now);
    if !g.b.state.OPEN? {
      OpenedByRaise(g.log, g.clock - cfg.recoveryTimeMs, now - cfg.recoveryTimeMs);
    }
    Snoc(cfg, g.log, SawSuccess);
    if g.b.state.HALF_OPEN? {
      var log := g.log + [SawSuccess];
      var downtime := now - g.failoverAt.value;
      Snoc(cfg, log, Closed);
      Snoc(cfg, log + [Closed], Recovered(downtime));
      assert log + [Closed] + [Recovered(downtime)] == g.log + [SawSuccess, Closed] + [Recovered(downtime)];
    }
  }

  lemma FailureSound(cfg: Settings, g: Guard, now: int)
    requires Sound(cfg, g) && Enabled(g, RedisFailed(now))
    ensures Sound(cfg, Step(cfg, g, RedisFailed(now)))
  {
    hide OpenedBy, QuietAfterOpening, EpisodeGrants, Streak, LastHookIsFailover, HooksAlternate;
    OpenedByRaise(g.log, g.clock, now);
    if !g.b.state.OPEN? {
      OpenedByRaise(g.log, g.clock - cfg.recoveryTimeMs, now - cfg.recoveryTimeMs);
    }
    var log := g.log + [SawFailure];
    Snoc(cfg, g.log, SawFailure);
    Snoc(cfg, log, Opened(now));
    Snoc(cfg, log + [Opened(now)], FailedOver(now));
    assert log + [Opened(now)] == g.log + [SawFailure, Opened(now)];
  }

  lemma StepSound(cfg: Settings, g: Guard, ev: Event)
    requires Sound(cfg, g) && Enabled(g, ev)
    ensures Sound(cfg, Step(cfg, g, ev))
  {
    hide Sound;
    match ev
    case Increment(now) => AttemptSound(cfg, g, now, Step(cfg, g, ev).inFlight);
    case QuietCall(now) => AttemptSound(cfg, g, now, g.inFlight);
    case RedisAnswered(now) => AnswerSound(cfg, g, now);
    case RedisFailed(now) => FailureSound(cfg, g, now);
  }

  /** Every reachable state, in every interleaving. */
  lemma {:induction false} BreakerIsSafe(cfg: Settings, start: int, evs: seq<Event>)
    ensures Sound(cfg, Exec(cfg, start, evs))
  {
    if evs != [] {
      hide Step, Sound;
      BreakerIsSafe(cfg, start, evs[..|evs| - 1]);
      var prev := Exec(cfg, start, evs[..|evs| - 1]);
      if Enabled(prev, evs[|evs| - 1]) {
        StepSound(cfg, prev, evs[|evs| - 1]);
      }
    }
  }

  // ----- what the invariant says, one promise at a time ------------------------------------------

  /** A grant at `now`, in any reachable state, is at least the recovery time after every opening so far. */
  lemma NoGrantWithinRecovery(cfg: Settings, start: int, evs: seq<Event>, now: int)
    requires var g := Exec(cfg, start, evs); g.clock <= now && IsGranted(CanAttempt(cfg, g.b, now).1)
    ensures OpenedBy(Exec(cfg, start, evs).log, now - cfg.recoveryTimeMs)
  {
    hide Exec;
    var g := Exec(cfg, start, evs);
    BreakerIsSafe(cfg, start, evs);
    if g.b.state.OPEN? {
      OpenedByRaise(g.log, g.b.openedAt.value, now - cfg.recoveryTimeMs);
    } else {
      OpenedByRaise(g.log, g.clock - cfg.recoveryTimeMs, now - cfg.recoveryTimeMs);
    }
  }

  /** The circuit leaves CLOSED exactly when a failure makes the streak reach the threshold. */
  lemma LeavesClosedIff(cfg: Settings, start: int, evs: seq<Event>, ev: Event)
    requires Exec(cfg, start, evs).b.state.CLOSED? && Enabled(Exec(cfg, start, evs), ev)
    ensures var g := Exec(cfg, start, evs);
            !Step(cfg, g, ev).b.state.CLOSED? <==> ev.RedisFailed? && Streak(g.log) + 1 == Threshold(cfg)
  {
    hide Exec;
    BreakerIsSafe(cfg, start, evs);
  }

  // ----- the machine, from its log alone ----------------------------------------------------------

  /** The state that the log ends in. */
  ghost function StateOf(log: seq<Mark>): (s: Circuit) {
    if log == [] then CLOSED
    else
      match log[|log| - 1]
      case Opened(_) => OPEN
      case HalfOpened => HALF_OPEN
      case Closed => CLOSED
      case _ => StateOf(log[..|log| - 1])
  }

  ghost function LastOpening(log: seq<Mark>): (t: Option<int>) {
    if log == [] then None
    else if log[|log| - 1].Opened? then Some(log[|log| - 1].at) else LastOpening(log[..|log| - 1])
  }

  ghost function LastFailover(log: seq<Mark>): (t: Option<int>) {
    if log == [] then None
    else if log[|log| - 1].FailedOver? then Some(log[|log| - 1].at) else LastFailover(log[..|log| - 1])
  }

  /** What the breaker and the store remember is what the log says. */
  ghost predicate Logged(g: Guard) {
    && g.b.state == StateOf(g.log)
    && (g.b.state.OPEN? ==> g.b.openedAt == LastOpening(g.log) && g.b.openedAt.Some?)
    && (!g.b.state.CLOSED? ==> g.failoverAt == LastFailover(g.log) && g.failoverAt.Some?)
  }

  lemma SnocLogged(log: seq<Mark>, m: Mark)
    ensures StateOf(log + [m]) == if m.Opened? then OPEN else if m.HalfOpened? then HALF_OPEN
                                  else if m.Closed? then CLOSED else StateOf(log)
    ensures LastOpening(log + [m]) == if m.Opened? then Some(m.at) else LastOpening(log)
    ensures LastFailover(log + [m]) == if m.FailedOver? then Some(m.at) else LastFailover(log)
  {
    assert (log + [m])[..|log|] == log;
  }

  /** At most three marks, one by one. */
  lemma SnocAll(log: seq<Mark>, marks: seq<Mark>)
    requires 1 <= |marks| <= 3
    ensures log + marks == (if |marks| == 1 then log + [marks[0]]
                            else if |marks| == 2 then log + [marks[0]] + [marks[1]]
                            else log + [marks[0]] + [marks[1]] + [marks[2]])
  {
  }

  lemma StepLogged(cfg: Settings, g: Guard, ev: Event)
    requires Logged(g) && Enabled(g, ev)
    ensures Logged(Step(cfg, g, ev))
  {
    hide StateOf, LastOpening, LastFailover;
    var marks := Step(cfg, g, ev).log[|g.log|..];
    assert Step(cfg, g, ev).log == g.log + marks;
    SnocAll(g.log, marks);
    SnocLogged(g.log, marks[0]);
    if |marks| > 1 {
      SnocLogged(g.log + [marks[0]], marks[1]);
    }
    if |marks| > 2 {
      SnocLogged(g.log + [marks[0]] + [marks[1]], marks[2]);
    }
  }

  lemma {:induction false} RunLogged(cfg: Settings, start: int, evs: seq<Event>)
    ensures Logged(Exec(cfg, start, evs))
  {
    if evs != [] {
      hide Step, Logged;
      RunLogged(cfg, start, evs[..|evs| - 1]);
      var prev := Exec(cfg, start, evs[..|evs| - 1]);
      if Enabled(prev, evs[|evs| - 1]) {
        StepLogged(cfg, prev, evs[|evs| - 1]);
      }
    } else {
      assert Logged(Exec(cfg, start, []));
    }
  }

  /**
   In every reachable state a call is let through exactly when the circuit is closed, or it has been open for the
   recovery time and may probe at all, or it is half open with a probe of the episode left.
   */
  lemma GrantedIff(cfg: Settings, start: int, evs: seq<Event>, now: int)
    requires Exec(cfg, start, evs).clock <= now
    ensures var g := Exec(cfg, start, evs);
            IsGranted(CanAttempt(cfg, g.b, now).1) <==>
              match StateOf(g.log)
              case CLOSED => true
              case OPEN => LastOpening(g.log).Some? && LastOpening(g.log).value + cfg.recoveryTimeMs <= now
                           && cfg.halfOpenMaxProbes >= 1
              case HALF_OPEN => EpisodeGrants(g.log) < cfg.halfOpenMaxProbes
  {
    hide Exec;
    var g := Exec(cfg, start, evs);
    BreakerIsSafe(cfg, start, evs);
    RunLogged(cfg, start, evs);
    hide StateOf, LastOpening, LastFailover, QuietAfterOpening, HooksAlternate, Streak, OpenedBy, EpisodeGrants;
    GrantedIn(cfg, g.b, now);
  }

  /**
   Every change of state: a half-open circuit closes on an answer and opens on a failure; an open one turns half open
   with the first call after the recovery time. Closing raises `onRecovery` with the time since the failover.
   */
  lemma ChangesIff(cfg: Settings, start: int, evs: seq<Event>, ev: Event)
    requires Enabled(Exec(cfg, start, evs), ev)
    ensures var (g, r) := (Exec(cfg, start, evs), Step(cfg, Exec(cfg, start, evs), ev));
            match g.b.state
            case CLOSED =>
              && (r.b.state.OPEN? <==> ev.RedisFailed? && Streak(g.log) + 1 == Threshold(cfg))
              && (!r.b.state.OPEN? ==> r.b.state.CLOSED?)
              && (r.b.state.OPEN? ==> r.log[|r.log| - 1] == FailedOver(ev.now))
            case HALF_OPEN =>
              && (r.b.state.CLOSED? <==> ev.RedisAnswered?) && (r.b.state.OPEN? <==> ev.RedisFailed?)
              && (r.b.state.CLOSED? ==>
                    && LastFailover(g.log).Some?
                    && r.log[|r.log| - 1] == Recovered(ev.now - LastFailover(g.log).value))
            case OPEN =>
              && (r.b.state.HALF_OPEN? <==>
                    && (ev.Increment? || ev.QuietCall?) && LastOpening(g.log).Some?
                    && LastOpening(g.log).value + cfg.recoveryTimeMs <= ev.now)
              && (!r.b.state.HALF_OPEN? ==> r.b.state.OPEN?)
  {
    hide Exec;
    BreakerIsSafe(cfg, start, evs);
    RunLogged(cfg, start, evs);
    hide StateOf, LastOpening, LastFailover, QuietAfterOpening, HooksAlternate, Streak, OpenedBy, EpisodeGrants;
  }

  // ----- can it ever let a call through again? ------------------------------------------------------

  /** Half open, all probes taken, and nobody left to report. */
  ghost predicate Stuck(cfg: Settings, g: Guard) {
    g.b.state.HALF_OPEN? && g.b.probes >= cfg.halfOpenMaxProbes && g.inFlight == 0
  }

  ghost function Continue(cfg: Settings, g: Guard, evs: seq<Event>): (r: Guard)
    decreases |evs|
  {
    if evs == [] then g else Continue(cfg, if Enabled(g, evs[0]) then Step(cfg, g, evs[0]) else g, evs[1..])
  }

  /** A stuck breaker stays stuck and refuses every call, whatever comes. */
  lemma {:induction false} StuckForever(cfg: Settings, g: Guard, evs: seq<Event>)
    requires Stuck(cfg, g)
    ensures var r := Continue(cfg, g, evs);
            Stuck(cfg, r) && r.b == g.b && forall now :: !IsGranted(CanAttempt(cfg, r.b, now).1)
    decreases |evs|
  {
    if evs != [] {
      StuckForever(cfg, if Enabled(g, evs[0]) then Step(cfg, g, evs[0]) else g, evs[1..]);
    }
  }

  /** Otherwise some continuation is granted a call: at once, after the recovery time, or after the next report. */
  lemma NotStuckCanGrant(cfg: Settings, g: Guard) returns (evs: seq<Event>, now: int)
    requires cfg.halfOpenMaxProbes >= 1 && Timely(cfg, g) && !Stuck(cfg, g)
    ensures var r := Continue(cfg, g, evs); r.clock <= now && IsGranted(CanAttempt(cfg, r.b, now).1)
  {
    match g.b.state
    case CLOSED =>
      evs, now := [], g.clock;
      assert CanAttempt(cfg, g.b, now).1[0].Granted?;
    case OPEN =>
      evs, now := [], Max(g.clock, g.b.openedAt.value + cfg.recoveryTimeMs);
      assert CanAttempt(cfg, g.b, now).1[1].Granted?;
    case HALF_OPEN =>
      now := g.clock;
      if g.b.probes < cfg.halfOpenMaxProbes {
        evs := [];
        assert CanAttempt(cfg, g.b, now).1[0].Granted?;
      } else {
        evs := [RedisAnswered(g.clock)];
        assert Continue(cfg, g, evs) == Step(cfg, g, evs[0]);
        assert CanAttempt(cfg, INITIAL, now).1[0].Granted?;
      }
  }

  ghost predicate IncrementsOnly(evs: seq<Event>) {
    forall i :: 0 <= i < |evs| ==> !evs[i].QuietCall?
  }

  lemma GrantsAreSeen(cfg: Settings, b: Breaker, now: int)
    ensures var (r, marks) := CanAttempt(cfg, b, now);
            r.state.HALF_OPEN? ==>
              r.probes == (if b.state.HALF_OPEN? then b.probes else 0) + if IsGranted(marks) then 1 else 0
  {
    var (r, marks) := CanAttempt(cfg, b, now);
    if b.state.OPEN? && |marks| == 2 {
      assert marks[1].Granted? ==> IsGranted(marks);
    } else {
      assert marks[0].Granted? ==> IsGranted(marks);
    }
  }

  /**
   When every granted call reports, the probes of an episode are all still in flight, so the breaker is never stuck.
   */
  lemma {:induction false} IncrementsNeverStick(cfg: Settings, start: int, evs: seq<Event>)
    requires cfg.halfOpenMaxProbes >= 1 && IncrementsOnly(evs)
    ensures var g := Exec(cfg, start, evs);
            !Stuck(cfg, g) && (g.b.state.HALF_OPEN? ==> g.b.probes <= g.inFlight)
  {
    if evs != [] {
      IncrementsNeverStick(cfg, start, evs[..|evs| - 1]);
      var prev, ev := Exec(cfg, start, evs[..|evs| - 1]), evs[|evs| - 1];
      if Enabled(prev, ev) && ev.Increment? {
        GrantsAreSeen(cfg, prev.b, ev.now);
      }
    }
  }

  /** One quiet call is enough to stick it: it takes the only probe and never reports. */
  lemma QuietCallSticks()
    ensures var cfg := Settings(1, 10, 1);
            Stuck(cfg, Exec(cfg, 0, [Increment(0), RedisFailed(1), QuietCall(11)]))
  {
    var cfg := Settings(1, 10, 1);
    var evs := [Increment(0), RedisFailed(1), QuietCall(11)];
    assert evs[..2] == [Increment(0), RedisFailed(1)] && evs[..2][..1] == [Increment(0)] && evs[..2][..1][..0] == [];
    var g0 := Exec(cfg, 0, []);
    assert CanAttempt(cfg, g0.b, 0).1[0].Granted?;
    var g1 := Exec(cfg, 0, [Increment(0)]);
    assert g1.inFlight == 1 && g1.b == INITIAL;
    var g2 := Exec(cfg, 0, evs[..2]);
    assert g2.inFlight == 0 && g2.b == Breaker(OPEN, 1, Some(1), 0);
  }
}
