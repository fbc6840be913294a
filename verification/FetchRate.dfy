// The breaker's rate bound inside a replica: how many origin fetches the threads of a replica start once its breaker
// has opened and while no fetch succeeds.
module FetchRate {
  import opened CircuitBreakers
  import opened RequestMachine
  import Laws = BreakerLaws

  // The event is a step of a thread.
  predicate Steps(r: Replica, e: Event) {
    e.Act? && e.thread < |r.pcs| && Enabled(r, e.thread)
  }

  // The step is one at which the breaker lets a fetch begin.
  predicate Starts(r: Replica, e: Event) {
    Steps(r, e) && r.pcs[e.thread].AskBreaker? && Admits(r.cfg, r.breaker, Now(r, e.choice))
  }

  // The step records a success.
  predicate Succeeds(r: Replica, e: Event) {
    Steps(r, e) && r.pcs[e.thread].TellBreaker? && r.pcs[e.thread].result.Some?
  }

  function Started(r: Replica, l2: L2, events: seq<Event>): nat
    requires Shaped(r)
    decreases |events|
  {
    if events == [] then 0
    else (if Starts(r, events[0]) then 1 else 0)
         + Started(Apply(r, l2, events[0]), ApplyL2(r, l2, events[0]), events[1..])
  }

  predicate NoSuccess(r: Replica, l2: L2, events: seq<Event>)
    requires Shaped(r)
    decreases |events|
  {
    events == []
    || (!Succeeds(r, events[0]) && NoSuccess(Apply(r, l2, events[0]), ApplyL2(r, l2, events[0]), events[1..]))
  }

  // The breaker, the clock and the fetches started, as the laws of the breaker see them.
  function View(r: Replica, started: nat): Laws.System {
    Laws.System(r.breaker, r.clock, 0, multiset{0}, 0, started, 0, 0)
  }

  ghost predicate Limited(r: Replica, started: nat, t0: int, rounds: nat)
    requires r.cfg.openMs >= 1
  {
    Laws.Limited(r.cfg, View(r, started), t0, 0, rounds)
  }

  lemma AskLimited(r: Replica, now: int, started: nat, t0: int, rounds: nat) returns (rounds': nat)
    requires r.cfg.openMs >= 1 && Limited(r, started, t0, rounds) && now >= r.clock
    ensures Limited(r.(breaker := AfterAsk(r.cfg, r.breaker, now), clock := now),
                    started + (if Admits(r.cfg, r.breaker, now) then 1 else 0), t0, rounds')
  {
    rounds' := Laws.LimitedStep(r.cfg, View(r, started), Laws.Ask(now), t0, 0, rounds);
  }

  lemma FailureLimited(r: Replica, now: int, started: nat, t0: int, rounds: nat) returns (rounds': nat)
    requires r.cfg.openMs >= 1 && Limited(r, started, t0, rounds) && now >= r.clock
    ensures Limited(r.(breaker := AfterFailure(r.cfg, r.breaker, now), clock := now), started, t0, rounds')
  {
    rounds' := Laws.LimitedStep(r.cfg, View(r, started), Laws.Report(0, false, now), t0, 0, rounds);
  }

  lemma SameBreaker(r: Replica, r': Replica, started: nat, t0: int, rounds: nat)
    requires r.cfg.openMs >= 1 && Limited(r, started, t0, rounds)
    requires r'.cfg == r.cfg && r'.breaker == r.breaker && r'.clock >= r.clock
    ensures Limited(r', started, t0, rounds)
  {
  }

  lemma ApplyLimited(r: Replica, l2: L2, e: Event, started: nat, t0: int, rounds: nat) returns (rounds': nat)
    requires Shaped(r) && r.cfg.openMs >= 1 && Limited(r, started, t0, rounds) && !Succeeds(r, e)
    ensures Apply(r, l2, e).cfg == r.cfg && Apply(r, l2, e).clock >= r.clock
    ensures Limited(Apply(r, l2, e), started + (if Starts(r, e) then 1 else 0), t0, rounds')
  {
    rounds' := rounds;
    if !Steps(r, e) {
      SameBreaker(r, Apply(r, l2, e), started, t0, rounds);
    } else {
      var r', now := Step(r, l2, e.thread, e.choice), Now(r, e.choice);
      if r.pcs[e.thread].AskBreaker? {
        rounds' := AskLimited(r, now, started, t0, rounds);
      } else if r.pcs[e.thread].TellBreaker? {
        rounds' := FailureLimited(r, now, started, t0, rounds);
      } else {
        SameBreaker(r, r', started, t0, rounds);
      }
    }
  }

  lemma {:induction false} RunLimited(r: Replica, l2: L2, events: seq<Event>, started: nat, t0: int, rounds: nat)
    returns (rounds': nat)
    requires Shaped(r) && r.cfg.openMs >= 1 && Limited(r, started, t0, rounds) && NoSuccess(r, l2, events)
    ensures Run(r, l2, events).cfg == r.cfg && Run(r, l2, events).clock >= r.clock
    ensures Limited(Run(r, l2, events), started + Started(r, l2, events), t0, rounds')
    decreases |events|
  {
    rounds' := rounds;
    if events != [] {
      var e := events[0];
      var mid := ApplyLimited(r, l2, e, started, t0, rounds);
      rounds' := RunLimited(Apply(r, l2, e), ApplyL2(r, l2, e), events[1..],
                            started + (if Starts(r, e) then 1 else 0), t0, mid);
    }
  }

  // From the moment a replica's breaker opens and for as long as no fetch succeeds, its threads start at most
  // max(1, maxProbes) fetches per full open period, in every interleaving.
  lemma FetchesAreLimited(r: Replica, l2: L2, events: seq<Event>)
    requires Shaped(r) && r.cfg.openMs >= 1
    requires r.breaker.mode == Open && r.breaker.openedAt == r.clock && NoSuccess(r, l2, events)
    ensures var r' := Run(r, l2, events);
            && r'.clock >= r.clock
            && Started(r, l2, events) <= Laws.ProbeLimit(r.cfg) * Laws.Periods(r.cfg, r.clock, r'.clock)
  {
    var rounds := RunLimited(r, l2, events, 0, r.clock, 0);
    Laws.BoundFromLimited(r.cfg, View(Run(r, l2, events), Started(r, l2, events)), r.clock, 0, rounds);
  }
}
