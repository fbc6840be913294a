// The breaker under concurrent callers: what holds in every interleaving of asks and results.
module BreakerLaws {
  import opened CacheEntries
  import opened CircuitBreakers

  // Concurrent callers. Every critical section is one event. `live` holds, for each admitted call
  // that has not yet reported, the epoch in which it was admitted; an epoch starts each time the
  // breaker turns half-open, so a late result from an older epoch is an ordinary event here.
  // `failureRun` is the number of failures recorded since the last recorded success, `since` is when the breaker last
  // turned open, and `probed` is how many calls have been admitted in the epoch.

  datatype System = System(b: Breaker, clock: int, epoch: nat, live: multiset<nat>,
                           failureRun: nat, admitted: nat, since: int, probed: nat)

  datatype Event = Ask(at: int) | Report(tag: nat, ok: bool, at: int)

  const START: System := System(INITIAL, 0, 0, multiset{}, 0, 0, 0, 0)

  // The steady clock never runs backwards; a result can only come from a call that is live.
  function Next(cfg: Config, s: System, e: Event): System {
    match e
    case Ask(at) =>
      var now := Max(s.clock, at);
      var s' := s.(b := AfterAsk(cfg, s.b, now), clock := now);
      if !Admits(cfg, s.b, now) then s'
      else
        var epoch := if s.b.mode == Open then s.epoch + 1 else s.epoch;
        s'.(epoch := epoch, live := s.live[epoch := s.live[epoch] + 1], admitted := s.admitted + 1,
            probed := if s.b.mode == Open then 1 else s.probed + 1)
    case Report(tag, ok, at) =>
      var now := Max(s.clock, at);
      if tag !in s.live then s
      else
        var live := s.live[tag := s.live[tag] - 1];
        if ok then
          s.(b := AfterSuccess(s.b), clock := now, live := live, failureRun := 0)
        else
          var b := AfterFailure(cfg, s.b, now);
          s.(b := b, clock := now, live := live, failureRun := s.failureRun + 1,
             since := if b.mode == Open && s.b.mode != Open then now else s.since)
  }

  function Run(cfg: Config, s: System, events: seq<Event>): System
    decreases |events|
  {
    if events == [] then s else Run(cfg, Next(cfg, s, events[0]), events[1..])
  }

  function ProbeLimit(cfg: Config): nat {
    Max(1, cfg.maxProbes)
  }

  ghost predicate NotStranded(cfg: Config, s: System) {
    && (s.b.mode == HalfOpen ==>
          && s.live[s.epoch] == s.b.probes
          && 1 <= s.b.probes <= ProbeLimit(cfg) && s.b.probes == s.probed)
    && (s.b.mode == Open ==> s.b.openedAt == s.since <= s.clock)
    && (forall tag :: tag in s.live ==> tag <= s.epoch)
    && (s.b.mode == Closed ==> s.b.failures == s.failureRun)
    && (s.b.mode == Closed && cfg.threshold >= 1 ==> s.failureRun < cfg.threshold)
  }

  // In every reachable state: a half-open breaker is waiting for exactly its own probes, all of them
  // still outstanding, and a closed breaker's failure run is below the threshold.
  lemma {:induction false} NeverStranded(cfg: Config, s: System, events: seq<Event>)
    requires NotStranded(cfg, s)
    ensures NotStranded(cfg, Run(cfg, s, events))
    decreases |events|
  {
    if events != [] {
      assert NotStranded(cfg, Next(cfg, s, events[0]));
      NeverStranded(cfg, Next(cfg, s, events[0]), events[1..]);
    }
  }

  // So a half-open breaker always has a live call of its own epoch to wait for, and the result of
  // that call, whatever it is and whenever it comes, moves the breaker on.
  lemma HalfOpenResolves(cfg: Config, events: seq<Event>, ok: bool, at: int)
    requires Run(cfg, START, events).b.mode == HalfOpen
    ensures var s := Run(cfg, START, events);
            && s.epoch in s.live
            && Next(cfg, s, Report(s.epoch, ok, at)).b.mode == (if ok then Closed else Open)
  {
    NeverStranded(cfg, START, events);
  }

  // ---------------------------------------------------------------------------------------------
  // What the breaker lets through, and when it turns.

  // In every reachable state: a closed breaker admits every call; an open one admits a call exactly when a full open
  // period has passed since it opened, and is half-open then; a half-open one admits a call exactly when fewer than
  // maxProbes have been admitted in its epoch.
  lemma AdmitsExactly(cfg: Config, events: seq<Event>, at: int)
    ensures var s := Run(cfg, START, events);
            var s', now := Next(cfg, s, Ask(at)), Max(s.clock, at);
            var period := cfg.openMs * NS_PER_MS;
            && (s'.admitted == s.admitted + 1 <==>
                  || s.b.mode == Closed
                  || (s.b.mode == Open && now - s.since >= period)
                  || (s.b.mode == HalfOpen && s.probed < cfg.maxProbes))
            && s.admitted <= s'.admitted <= s.admitted + 1
            && (s'.b.mode == s.b.mode || (s.b.mode == Open && s'.b.mode == HalfOpen))
            && (s.b.mode == Open ==> (s'.b.mode == HalfOpen <==> now - s.since >= period))
  {
    NeverStranded(cfg, START, events);
    var s := Run(cfg, START, events);
    if s.b.mode == Open {
      var d := Max(s.clock, at) - s.since;
      assert d == (d / NS_PER_MS) * NS_PER_MS + d % NS_PER_MS;
    }
  }

  // In every reachable state a recorded success closes the breaker. A recorded failure opens a half-open breaker; it
  // opens a closed one exactly when the failures since the last success then number the threshold or more; and an open
  // one stays as it is.
  lemma TurnsExactly(cfg: Config, events: seq<Event>, tag: nat, ok: bool, at: int)
    requires tag in Run(cfg, START, events).live
    ensures var s := Run(cfg, START, events);
            var s' := Next(cfg, s, Report(tag, ok, at));
            && (ok ==> s'.b.mode == Closed && s'.failureRun == 0)
            && (!ok ==> s'.failureRun == s.failureRun + 1)
            && (!ok && s.b.mode == Closed ==>
                  s'.b.mode == (if s'.failureRun >= cfg.threshold then Open else Closed))
            && (!ok && s.b.mode == HalfOpen ==> s'.b.mode == Open)
            && (!ok && s.b.mode == Open ==> s'.b.mode == Open && s'.since == s.since)
            && (!ok && s.b.mode != Open && s'.b.mode == Open ==> s'.since == Max(s.clock, at))
  {
    NeverStranded(cfg, START, events);
  }

  // So a closed breaker with threshold 1 or more opens at exactly that many failures in a row.
  lemma OpensAtThreshold(cfg: Config, events: seq<Event>, tag: nat, at: int)
    requires cfg.threshold >= 1 && tag in Run(cfg, START, events).live && Run(cfg, START, events).b.mode == Closed
    ensures var s := Run(cfg, START, events);
            Next(cfg, s, Report(tag, false, at)).b.mode == Open <==> s.failureRun + 1 == cfg.threshold
  {
    NeverStranded(cfg, START, events);
    TurnsExactly(cfg, events, tag, false, at);
  }

  // ---------------------------------------------------------------------------------------------
  // Rate bound while the origin keeps failing.

  predicate NoSuccess(events: seq<Event>) {
    forall i :: 0 <= i < |events| ==> !(events[i].Report? && events[i].ok)
  }

  // Full open periods that fit between t0 and t.
  function Periods(cfg: Config, t0: int, t: int): nat
    requires cfg.openMs >= 1 && t >= t0
  {
    (t - t0) / (cfg.openMs * NS_PER_MS)
  }

  // `rounds` half-open rounds have started since t0, each after a full open period.
  ghost predicate Limited(cfg: Config, s: System, t0: int, base: nat, rounds: nat)
    requires cfg.openMs >= 1
  {
    && s.b.mode != Closed
    && t0 + rounds * (cfg.openMs * NS_PER_MS) <= s.clock
    && (s.b.mode == Open ==> (
          && t0 + rounds * (cfg.openMs * NS_PER_MS) <= s.b.openedAt <= s.clock
          && s.admitted <= base + rounds * ProbeLimit(cfg)))
    && (s.b.mode == HalfOpen ==> (
          && rounds >= 1 && 1 <= s.b.probes <= ProbeLimit(cfg)
          && s.admitted <= base + (rounds - 1) * ProbeLimit(cfg) + s.b.probes))
  }

  lemma ElapsedBound(b: Breaker, now: int, openMs: int)
    requires openMs >= 1
    requires ElapsedMs(b, now) >= openMs
    ensures now >= b.openedAt + openMs * NS_PER_MS
  {
    var d := now - b.openedAt;
    if d >= 0 {
      assert d == (d / NS_PER_MS) * NS_PER_MS + d % NS_PER_MS;
    }
  }

  lemma LimitedStep(cfg: Config, s: System, e: Event, t0: int, base: nat, rounds: nat) returns (rounds': nat)
    requires cfg.openMs >= 1
    requires Limited(cfg, s, t0, base, rounds)
    requires !(e.Report? && e.ok)
    ensures Limited(cfg, Next(cfg, s, e), t0, base, rounds')
  {
    var P := cfg.openMs * NS_PER_MS;
    var m := ProbeLimit(cfg);
    var s' := Next(cfg, s, e);
    rounds' := rounds;
    if e.Ask? && s.b.mode == Open && s'.b.mode == HalfOpen {
      ElapsedBound(s.b, Max(s.clock, e.at), cfg.openMs);
      rounds' := rounds + 1;
      assert rounds' * P == rounds * P + P;
    } else if e.Report? && s.b.mode == HalfOpen && s'.b.mode == Open {
      assert (rounds - 1) * m + m == rounds * m;
    }
  }

  lemma {:induction false} LimitedRun(cfg: Config, s: System, events: seq<Event>, t0: int, base: nat, rounds: nat)
    returns (rounds': nat)
    requires cfg.openMs >= 1
    requires Limited(cfg, s, t0, base, rounds)
    requires NoSuccess(events)
    ensures Limited(cfg, Run(cfg, s, events), t0, base, rounds')
    decreases |events|
  {
    rounds' := rounds;
    if events != [] {
      var mid := LimitedStep(cfg, s, events[0], t0, base, rounds);
      assert NoSuccess(events[1..]) by {
        forall i | 0 <= i < |events[1..]| ensures !(events[1..][i].Report? && events[1..][i].ok) {
          assert events[1..][i] == events[i + 1];
        }
      }
      rounds' := LimitedRun(cfg, Next(cfg, s, events[0]), events[1..], t0, base, mid);
    }
  }

  lemma BoundFromLimited(cfg: Config, s: System, t0: int, base: nat, rounds: nat)
    requires cfg.openMs >= 1 && Limited(cfg, s, t0, base, rounds)
    ensures s.clock >= t0 && s.admitted - base <= ProbeLimit(cfg) * Periods(cfg, t0, s.clock)
  {
    var P := cfg.openMs * NS_PER_MS;
    var m := ProbeLimit(cfg);
    if rounds >= 1 {
      assert (rounds - 1) * m + m == rounds * m;
    }
    assert rounds * P >= 0;
    RoundsWithin(rounds, P, s.clock - t0);
    MulMono(m, rounds, Periods(cfg, t0, s.clock));
  }

  // From the moment the breaker opens at t0 and for as long as no success is recorded, the calls it
  // admits by any later time t are at most max(1, maxProbes) for each full open period elapsed.
  lemma RateBound(cfg: Config, s: System, events: seq<Event>)
    requires cfg.openMs >= 1
    requires s.b.mode == Open && s.b.openedAt == s.clock
    requires NoSuccess(events)
    ensures var s' := Run(cfg, s, events);
            && s'.clock >= s.clock
            && s'.admitted - s.admitted <= ProbeLimit(cfg) * Periods(cfg, s.clock, s'.clock)
  {
    var rounds := LimitedRun(cfg, s, events, s.clock, s.admitted, 0);
    BoundFromLimited(cfg, Run(cfg, s, events), s.clock, s.admitted, rounds);
  }

  lemma RoundsWithin(rounds: nat, P: nat, t: nat)
    requires P > 0 && rounds * P <= t
    ensures rounds <= t / P
  {
    assert t < (t / P + 1) * P;
    if t / P + 1 <= rounds {
      MulMono(P, t / P + 1, rounds);
    }
  }

  lemma MulMono(k: nat, x: nat, y: nat)
    requires x <= y
    ensures k * x <= k * y && x * k <= y * k
  {
  }
}
