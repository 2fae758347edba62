/**
 The circuit breaker in front of Redis, with the failover and recovery hooks of the store that
 owns it.
 */
module CircuitBreaker {
  import opened Entries

  datatype Circuit = CLOSED | OPEN | HALF_OPEN

  datatype Settings = Settings(failureThreshold: int, recoveryTimeMs: int, halfOpenMaxProbes: int)

  datatype Breaker = Breaker(state: Circuit, failures: int, openedAt: Option<int>, probes: int)

  const INITIAL := Breaker(CLOSED, 0, None, 0)

  /** Callbacks of the breaker, and the hooks that the store raises around it. */
  datatype Mark =
    | Granted(at: int)
    | Refused(at: int)
    | HalfOpened
    | Opened(at: int)
    | Closed
    | SawSuccess
    | SawFailure
    | FailedOver(at: int)
    | Recovered(downtimeMs: int)

  /** May a caller try? */
  function CanAttempt(cfg: Settings, b: Breaker, now: int): (r: (Breaker, seq<Mark>)) {
    match b.state
    case CLOSED => (b, [Granted(now)])
    case OPEN =>
      if b.openedAt.None? || now < b.openedAt.value + cfg.recoveryTimeMs then (b, [Refused(now)])
      else
        var (next, marks) := GrantProbe(cfg, b.(state := HALF_OPEN, probes := 0), now);
        (next, [HalfOpened] + marks)
    case HALF_OPEN => GrantProbe(cfg, b, now)
  }

  function GrantProbe(cfg: Settings, b: Breaker, now: int): (r: (Breaker, seq<Mark>)) {
    if b.probes >= cfg.halfOpenMaxProbes then (b, [Refused(now)]) else (b.(probes := b.probes + 1), [Granted(now)])
  }

  function AfterSuccess(b: Breaker): (r: (Breaker, seq<Mark>)) {
    match b.state
    case CLOSED => (b.(failures := 0), [SawSuccess])
    case HALF_OPEN => (INITIAL, [SawSuccess, Closed])
    case OPEN => (b, [SawSuccess])
  }

  function AfterFailure(cfg: Settings, b: Breaker, now: int): (r: (Breaker, seq<Mark>)) {
    match b.state
    case CLOSED =>
      if b.failures + 1 >= cfg.failureThreshold
      then (Breaker(OPEN, b.failures + 1, Some(now), b.probes), [SawFailure, Opened(now)])
      else (b.(failures := b.failures + 1), [SawFailure])
    case HALF_OPEN => (Breaker(OPEN, cfg.failureThreshold, Some(now), 0), [SawFailure, Opened(now)])
    case OPEN => (b, [SawFailure])
  }

  class CircuitBreaker {
    const cfg: Settings
    var state: Circuit
    var consecutiveFailures: int
    var openedAtMs: Option<int>
    var halfOpenInFlight: int

    ghost function View(): (b: Breaker)
      reads this
    {
      Breaker(state, consecutiveFailures, openedAtMs, halfOpenInFlight)
    }

    constructor (cfg: Settings)
      ensures View() == INITIAL && this.cfg == cfg
    {
      this.cfg, state, consecutiveFailures, openedAtMs, halfOpenInFlight := cfg, CLOSED, 0, None, 0;
    }

    method GrantHalfOpenProbe(ghost now: int) returns (ok: bool, ghost marks: seq<Mark>)
      modifies this`halfOpenInFlight
      ensures (View(), marks) == GrantProbe(cfg, old(View()), now) && ok == (marks == [Granted(now)])
    {
      if halfOpenInFlight >= cfg.halfOpenMaxProbes {
        return false, [Refused(now)];
      }
      halfOpenInFlight := halfOpenInFlight + 1;
      return true, [Granted(now)];
    }

    method TryAttempt(now: int) returns (ok: bool, ghost marks: seq<Mark>)
      modifies this
      ensures (View(), marks) == CanAttempt(cfg, old(View()), now) && ok == (Granted(now) in marks)
    {
      if state.CLOSED? {
        return true, [Granted(now)];
      }
      if state.OPEN? {
        if openedAtMs.None? || now < openedAtMs.value + cfg.recoveryTimeMs {
          return false, [Refused(now)];
        }
        state, halfOpenInFlight := HALF_OPEN, 0;
        ok, marks := GrantHalfOpenProbe(now);
        marks := [HalfOpened] + marks;
      } else {
        ok, marks := GrantHalfOpenProbe(now);
      }
    }

    method RecordSuccess() returns (closed: bool)
      modifies this
      ensures View() == AfterSuccess(old(View())).0 && closed == (Closed in AfterSuccess(old(View())).1)
    {
      closed := false;
      if state.CLOSED? {
        consecutiveFailures := 0;
      } else if state.HALF_OPEN? {
        halfOpenInFlight, consecutiveFailures, openedAtMs, state := 0, 0, None, CLOSED;
        closed := true;
      }
    }

    method RecordFailure(now: int)
      modifies this
      ensures View() == AfterFailure(cfg, old(View()), now).0
    {
      if state.CLOSED? {
        consecutiveFailures := consecutiveFailures + 1;
        if consecutiveFailures >= cfg.failureThreshold {
          state, openedAtMs := OPEN, Some(now);
        }
      } else if state.HALF_OPEN? {
        halfOpenInFlight, state, openedAtMs, consecutiveFailures := 0, OPEN, Some(now), cfg.failureThreshold;
      }
    }
  }

  // ----- the store around it ----------------------------------------------------------------

  /** What the store remembers: when it failed over, and how many granted increments have not reported. */
  datatype Guard = Guard(b: Breaker, failoverAt: Option<int>, inFlight: nat, clock: int, log: seq<Mark>)

  datatype Event =
    | Increment(now: int)
    | RedisAnswered(now: int)
    | RedisFailed(now: int)
    | QuietCall(now: int)

  /** `get`, `set` and `decrement` ask the breaker too, and report nothing. */
  predicate Enabled(g: Guard, ev: Event) {
    g.clock <= ev.now && (ev.RedisAnswered? || ev.RedisFailed? ==> g.inFlight > 0)
  }

  function IsGranted(marks: seq<Mark>): (ok: bool) {
    exists i :: 0 <= i < |marks| && marks[i].Granted?
  }

  function Step(cfg: Settings, g: Guard, ev: Event): (r: Guard)
    requires Enabled(g, ev)
  {
    match ev
    case Increment(now) =>
      var (b, marks) := CanAttempt(cfg, g.b, now);
      Guard(b, g.failoverAt, if IsGranted(marks) then g.inFlight + 1 else g.inFlight, now, g.log + marks)
    case QuietCall(now) =>
      var (b, marks) := CanAttempt(cfg, g.b, now);
      Guard(b, g.failoverAt, g.inFlight, now, g.log + marks)
    case RedisAnswered(now) =>
      var (b, marks) := AfterSuccess(g.b);
      if Closed in marks then
        var downtime := if g.failoverAt.Some? then now - g.failoverAt.value else 0;
        Guard(b, None, g.inFlight - 1, now, g.log + marks + [Recovered(downtime)])
      else Guard(b, g.failoverAt, g.inFlight - 1, now, g.log + marks)
    case RedisFailed(now) =>
      var (b, marks) := AfterFailure(cfg, g.b, now);
      if g.b.state.CLOSED? && b.state.OPEN? then
        Guard(b, Some(now), g.inFlight - 1, now, g.log + marks + [FailedOver(now)])
      else Guard(b, g.failoverAt, g.inFlight - 1, now, g.log + marks)
  }

  function Exec(cfg: Settings, start: int, evs: seq<Event>): (g: Guard) {
    if evs == [] then Guard(INITIAL, None, 0, start, [])
    else
      var prev := Exec(cfg, start, evs[..|evs| - 1]);
      if Enabled(prev, evs[|evs| - 1]) then Step(cfg, prev, evs[|evs| - 1]) else prev
  }

  /** The part of the Redis store around the breaker; the ghost fields record what the machine above counts. */
  class ResilientStore {
    const breaker: CircuitBreaker
    var failoverStartedAtMs: Option<int>
    ghost var inFlight: nat
    ghost var clock: int
    ghost var log: seq<Mark>

    ghost function View(): (g: Guard)
      reads this, breaker
    {
      Guard(breaker.View(), failoverStartedAtMs, inFlight, clock, log)
    }

    constructor (cfg: Settings, start: int)
      ensures View() == Exec(breaker.cfg, start, []) && breaker.cfg == cfg && fresh(breaker)
    {
      breaker := new CircuitBreaker(cfg);
      failoverStartedAtMs, inFlight, clock, log := None, 0, start, [];
    }

    /** The first half of an increment, up to the call to Redis: it goes there, or to the insurance store. */
    method BeginIncrement(now: int) returns (toRedis: bool)
      requires Enabled(View(), Increment(now))
      modifies this, breaker
      ensures View() == Step(breaker.cfg, old(View()), Increment(now))
      ensures toRedis == (inFlight == old(inFlight) + 1)
    {
      ghost var marks;
      toRedis, marks := breaker.TryAttempt(now);
      assert toRedis == IsGranted(marks) by { GrantedIn(breaker.cfg, old(breaker.View()), now); }
      inFlight, clock, log := if toRedis then inFlight + 1 else inFlight, now, log + marks;
    }

    /** `get`, `set` and `decrement` use the answer and never report back. */
    method ShouldRouteQuotaViaInsurance(now: int) returns (viaInsurance: bool)
      requires Enabled(View(), QuietCall(now))
      modifies this, breaker
      ensures View() == Step(breaker.cfg, old(View()), QuietCall(now))
    {
      var ok;
      ghost var marks;
      ok, marks := breaker.TryAttempt(now);
      viaInsurance := !ok;
      clock, log := now, log + marks;
    }

    /** Redis answered: closing the circuit raises `onRecovery` with the downtime. */
    method OnAnswer(now: int) returns (recovered: Option<int>)
      requires Enabled(View(), RedisAnswered(now))
      modifies this, breaker
      ensures View() == Step(breaker.cfg, old(View()), RedisAnswered(now))
      ensures recovered.Some? <==>
              log == old(log) + AfterSuccess(old(breaker.View())).1
                + [Recovered(if recovered.Some? then recovered.value else 0)]
    {
      ghost var marks := AfterSuccess(breaker.View()).1;
      var closed := breaker.RecordSuccess();
      recovered := None;
      inFlight, clock, log := inFlight - 1, now, log + marks;
      if closed {
        var downtime := if failoverStartedAtMs.Some? then now - failoverStartedAtMs.value else 0;
        failoverStartedAtMs := None;
        recovered := Some(downtime);
        log := log + [Recovered(downtime)];
      }
    }

    /** Redis failed: only the failure that opens a closed circuit raises `onFailover`. */
    method OnFailure(now: int) returns (failedOver: bool)
      requires Enabled(View(), RedisFailed(now))
      modifies this, breaker
      ensures View() == Step(breaker.cfg, old(View()), RedisFailed(now))
      ensures failedOver == (old(breaker.state).CLOSED? && breaker.state.OPEN?)
    {
      ghost var marks := AfterFailure(breaker.cfg, breaker.View(), now).1;
      var before := breaker.state;
      breaker.RecordFailure(now);
      failedOver := before.CLOSED? && breaker.state.OPEN?;
      inFlight, clock, log := inFlight - 1, now, log + marks;
      if failedOver {
        failoverStartedAtMs := Some(now);
        log := log + [FailedOver(now)];
      }
    }
  }

  lemma GrantedIn(cfg: Settings, b: Breaker, now: int)
    ensures var marks := CanAttempt(cfg, b, now).1; Granted(now) in marks <==> IsGranted(marks)
  {
    var marks := CanAttempt(cfg, b, now).1;
    assert forall i :: 0 <= i < |marks| && marks[i].Granted? ==> marks[i] == Granted(now);
  }
}
