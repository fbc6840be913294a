// The per-origin circuit breaker. The class has the fields and critical sections of the original;
// each method is specified by a function on breaker values.
module CircuitBreakers {
  import opened CacheEntries

  datatype Mode = Closed | Open | HalfOpen

  datatype Config = Config(threshold: int, openMs: int, maxProbes: int)

  datatype Breaker = Breaker(mode: Mode, failures: int, probes: int, openedAt: int)

  const INITIAL: Breaker := Breaker(Closed, 0, 0, 0)

  function ElapsedMs(b: Breaker, now: int): int {
    TruncDiv(now - b.openedAt, NS_PER_MS)
  }

  predicate Admits(cfg: Config, b: Breaker, now: int) {
    match b.mode
    case Closed => true
    case Open => ElapsedMs(b, now) >= cfg.openMs
    case HalfOpen => b.probes < cfg.maxProbes
  }

  function AfterAsk(cfg: Config, b: Breaker, now: int): Breaker {
    if !Admits(cfg, b, now) then b
    else match b.mode
      case Closed => b
      case Open => b.(mode := HalfOpen, probes := 1)
      case HalfOpen => b.(probes := b.probes + 1)
  }

  function AfterSuccess(b: Breaker): Breaker {
    if b.mode != Closed then Breaker(Closed, 0, 0, b.openedAt) else b.(failures := 0)
  }

  function Opened(b: Breaker, now: int): Breaker {
    Breaker(Open, b.failures, 0, now)
  }

  function AfterFailure(cfg: Config, b: Breaker, now: int): Breaker {
    if b.mode == HalfOpen then Opened(b, now)
    else
      var counted := b.(failures := b.failures + 1);
      if b.mode == Closed && counted.failures >= cfg.threshold then Opened(counted, now) else counted
  }

  class CircuitBreaker {
    const cfg: Config
    var state: Mode
    var consecutiveFailures: int
    var halfOpenProbes: int
    var openedAt: int

    function Snapshot(): Breaker
      reads this
    {
      Breaker(state, consecutiveFailures, halfOpenProbes, openedAt)
    }

    constructor (cfg: Config)
      ensures this.cfg == cfg && Snapshot() == INITIAL
    {
      this.cfg := cfg;
      state, consecutiveFailures, halfOpenProbes, openedAt := Closed, 0, 0, 0;
    }

    method AllowRequest(now: int) returns (admitted: bool)
      modifies this
      ensures admitted == Admits(cfg, old(Snapshot()), now)
      ensures Snapshot() == AfterAsk(cfg, old(Snapshot()), now)
    {
      match state
      case Closed =>
        return true;
      case Open =>
        var elapsed := TruncDiv(now - openedAt, NS_PER_MS);
        if elapsed >= cfg.openMs {
          state := HalfOpen;
          halfOpenProbes := 1;
          return true;
        }
        return false;
      case HalfOpen =>
        if halfOpenProbes < cfg.maxProbes {
          halfOpenProbes := halfOpenProbes + 1;
          return true;
        }
        return false;
    }

    method RecordSuccess()
      modifies this
      ensures Snapshot() == AfterSuccess(old(Snapshot()))
    {
      consecutiveFailures := 0;
      if state != Closed {
        state := Closed;
        halfOpenProbes := 0;
      }
    }

    method RecordFailure(now: int)
      modifies this
      ensures Snapshot() == AfterFailure(cfg, old(Snapshot()), now)
    {
      if state == HalfOpen {
        TransitionToOpen(now);
        return;
      }
      consecutiveFailures := consecutiveFailures + 1;
      if state == Closed && consecutiveFailures >= cfg.threshold {
        TransitionToOpen(now);
      }
    }

    method TransitionToOpen(now: int)
      modifies this
      ensures Snapshot() == Opened(old(Snapshot()), now)
    {
      state := Open;
      openedAt := now;
      halfOpenProbes := 0;
    }
  }
}
