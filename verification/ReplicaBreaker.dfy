// The breaker inside a replica: every run of the replica's threads is, for its breaker, a run of asks and reports, so
// that what holds of the breaker in every such run holds in the replica.
module ReplicaBreaker {
  import opened CacheEntries
  import opened CircuitBreakers
  import opened InFlight
  import opened RequestMachine
  import opened SingleFlight
  import opened Accounting
  import opened Answers
  import Laws = BreakerLaws

  // The breaker's system, and for each thread the epoch in which it last asked.
  datatype Gauge = Gauge(sys: Laws.System, epochs: seq<nat>)

  // What a step of thread i is for the breaker: an ask, a report of what the thread's own fetch has brought, or
  // nothing.
  function Signal(r: Replica, i: nat, c: Choice, h: Log, epoch: nat): seq<Laws.Event>
    requires i < |r.pcs|
  {
    if r.pcs[i].AskBreaker? then [Laws.Ask(Now(r, c))]
    else if r.pcs[i].TellBreaker? then [Laws.Report(epoch, h.reply.Said? && h.reply.answer.ok, Now(r, c))]
    else []
  }

  function Gauged(r: Replica, i: nat, c: Choice, h: Log, g: Gauge): (g': Gauge)
    requires i < |r.pcs| == |g.epochs|
    ensures |g'.epochs| == |g.epochs|
  {
    var sys := Laws.Run(r.cfg, g.sys, Signal(r, i, c, h, g.epochs[i]));
    Gauge(sys, if r.pcs[i].AskBreaker? then g.epochs[i := sys.epoch] else g.epochs)
  }

  predicate Acts(r: Replica, e: Event) {
    e.Act? && e.thread < |r.pcs| && Enabled(r, e.thread)
  }

  function ApplyGauge(r: Replica, e: Event, logs: seq<Log>, g: Gauge): (g': Gauge)
    requires |logs| == |r.pcs| == |g.epochs|
    ensures |g'.epochs| == |g.epochs|
  {
    if Acts(r, e) then Gauged(r, e.thread, e.choice, logs[e.thread], g) else g
  }

  // All that the breaker is asked and told in a run.
  function Signals(r: Replica, l2: L2, events: seq<Event>, logs: seq<Log>, g: Gauge): seq<Laws.Event>
    requires Shaped(r) && |logs| == |r.pcs| == |g.epochs|
    decreases |events|
  {
    if events == [] then []
    else
      var e := events[0];
      (if Acts(r, e) then Signal(r, e.thread, e.choice, logs[e.thread], g.epochs[e.thread]) else [])
      + Signals(Apply(r, l2, e), ApplyL2(r, l2, e), events[1..], ApplyLogs(r, l2, e, logs), ApplyGauge(r, e, logs, g))
  }

  function RunGauge(r: Replica, l2: L2, events: seq<Event>, logs: seq<Log>, g: Gauge): (g': Gauge)
    requires Shaped(r) && |logs| == |r.pcs| == |g.epochs|
    ensures |g'.epochs| == |g.epochs|
    decreases |events|
  {
    if events == [] then g
    else
      var e := events[0];
      RunGauge(Apply(r, l2, e), ApplyL2(r, l2, e), events[1..], ApplyLogs(r, l2, e, logs), ApplyGauge(r, e, logs, g))
  }

  lemma {:induction false} RunAppend(cfg: Config, s: Laws.System, a: seq<Laws.Event>, b: seq<Laws.Event>)
    ensures Laws.Run(cfg, s, a + b) == Laws.Run(cfg, Laws.Run(cfg, s, a), b)
    decreases |a|
  {
    if a == [] {
      assert a + b == b;
    } else {
      assert (a + b)[1..] == a[1..] + b;
      RunAppend(cfg, Laws.Next(cfg, s, a[0]), a[1..], b);
    }
  }

  lemma {:induction false} GaugeIsRun(r: Replica, l2: L2, events: seq<Event>, logs: seq<Log>, g: Gauge)
    requires Shaped(r) && |logs| == |r.pcs| == |g.epochs|
    ensures RunGauge(r, l2, events, logs, g).sys == Laws.Run(r.cfg, g.sys, Signals(r, l2, events, logs, g))
    decreases |events|
  {
    if events != [] {
      var e := events[0];
      var first := if Acts(r, e) then Signal(r, e.thread, e.choice, logs[e.thread], g.epochs[e.thread]) else [];
      var r', l2' := Apply(r, l2, e), ApplyL2(r, l2, e);
      var logs', g' := ApplyLogs(r, l2, e, logs), ApplyGauge(r, e, logs, g);
      GaugeIsRun(r', l2', events[1..], logs', g');
      RunAppend(r.cfg, g.sys, first, Signals(r', l2', events[1..], logs', g'));
      assert Laws.Run(r.cfg, g.sys, first) == g'.sys;
    }
  }

  // ---------------------------------------------------------------------------------------------
  // The calls that are live for the breaker are the threads that are fetching.

  datatype Probe = Probe(pc: Pc, epoch: nat)

  function Probes(pcs: seq<Pc>, epochs: seq<nat>): (probes: seq<Probe>)
    requires |pcs| == |epochs|
    ensures |probes| == |pcs| && forall i :: 0 <= i < |pcs| ==> probes[i] == Probe(pcs[i], epochs[i])
  {
    seq(|pcs|, i requires 0 <= i < |pcs| => Probe(pcs[i], epochs[i]))
  }

  function InEpoch(p: Probe, tag: nat): nat {
    if p.epoch == tag then Probing(p.pc) else 0
  }

  // How many threads are fetching that were let through in the epoch.
  function Fetching(pcs: seq<Pc>, epochs: seq<nat>, tag: nat): nat
    requires |pcs| == |epochs|
  {
    Sum(Probes(pcs, epochs), (p: Probe) => InEpoch(p, tag))
  }

  lemma FetchingUpdate(pcs: seq<Pc>, epochs: seq<nat>, i: nat, pc: Pc, epoch: nat, tag: nat)
    requires |pcs| == |epochs| && i < |pcs|
    ensures Fetching(pcs[i := pc], epochs[i := epoch], tag) + InEpoch(Probe(pcs[i], epochs[i]), tag)
            == Fetching(pcs, epochs, tag) + InEpoch(Probe(pc, epoch), tag)
  {
    assert Probes(pcs[i := pc], epochs[i := epoch]) == Probes(pcs, epochs)[i := Probe(pc, epoch)];
    SumUpdate(Probes(pcs, epochs), i, Probe(pc, epoch), (p: Probe) => InEpoch(p, tag));
  }

  lemma FetchingAtLeast(pcs: seq<Pc>, epochs: seq<nat>, i: nat)
    requires |pcs| == |epochs| && i < |pcs|
    ensures Fetching(pcs, epochs, epochs[i]) >= Probing(pcs[i])
  {
    FetchingUpdate(pcs, epochs, i, Idle, epochs[i], epochs[i]);
  }

  ghost predicate LiveIs(s: Laws.System, pcs: seq<Pc>, epochs: seq<nat>) {
    |pcs| == |epochs| && forall tag: nat :: s.live[tag] == Fetching(pcs, epochs, tag)
  }

  ghost predicate GaugeOk(r: Replica, g: Gauge) {
    g.sys.b == r.breaker && g.sys.clock <= r.clock && LiveIs(g.sys, r.pcs, g.epochs)
  }

  // A revalidation that is started is not fetching yet.
  lemma LiveAfter(r: Replica, l2: L2, i: nat, c: Choice, s: Laws.System, epochs: seq<nat>)
    requires Inv(r) && i < |r.pcs| == |epochs| && Enabled(r, i)
    requires LiveIs(s, r.pcs[i := NextPc(r, l2, i, c)], epochs)
    ensures LiveIs(s, PcsAfter(r, l2, i, c), epochs)
  {
    assert ThreadOk(r, i);
    if Spawns(r, i) {
      var pcs, w := r.pcs[i := NextPc(r, l2, i, c)], |r.reqs| + i;
      var pc := AskBreaker(Revalidating(SlotFor(r.reg, KeyOf(r, i))));
      forall tag: nat ensures s.live[tag] == Fetching(pcs[w := pc], epochs, tag) {
        FetchingUpdate(pcs, epochs, w, pc, epochs[w], tag);
        assert epochs[w := epochs[w]] == epochs;
      }
    }
  }

  lemma FetcherProbes(r: Replica, l2: L2, i: nat, c: Choice)
    requires Shaped(r) && i < |r.pcs| && RoleOf(r.pcs[i]).Some? && !r.pcs[i].AskBreaker? && !r.pcs[i].TellBreaker?
    ensures Probing(FetchNext(r, l2, i, c)) == Probing(r.pcs[i])
  {
  }

  lemma OtherProbes(r: Replica, l2: L2, i: nat, c: Choice)
    requires Shaped(r) && i < |r.pcs| && Enabled(r, i) && !r.pcs[i].AskBreaker? && !r.pcs[i].TellBreaker?
    ensures Probing(NextPc(r, l2, i, c)) == Probing(r.pcs[i])
  {
    if RoleOf(r.pcs[i]).Some? {
      FetcherProbes(r, l2, i, c);
    }
  }

  // A step that the breaker does not notice.
  lemma QuietStep(r: Replica, l2: L2, i: nat, c: Choice, s: Laws.System, epochs: seq<nat>)
    requires Shaped(r) && i < |r.pcs| == |epochs| && Enabled(r, i) && LiveIs(s, r.pcs, epochs)
    requires !r.pcs[i].AskBreaker? && !r.pcs[i].TellBreaker?
    ensures LiveIs(s, r.pcs[i := NextPc(r, l2, i, c)], epochs)
  {
    OtherProbes(r, l2, i, c);
    forall tag: nat ensures s.live[tag] == Fetching(r.pcs[i := NextPc(r, l2, i, c)], epochs, tag) {
      FetchingUpdate(r.pcs, epochs, i, NextPc(r, l2, i, c), epochs[i], tag);
      assert epochs[i := epochs[i]] == epochs;
    }
  }

  lemma AskStep(cfg: Config, s: Laws.System, pcs: seq<Pc>, epochs: seq<nat>, i: nat, pc: Pc, now: int)
    requires LiveIs(s, pcs, epochs) && i < |pcs| && pcs[i].AskBreaker? && s.clock <= now
    requires if Admits(cfg, s.b, now) then pc.Fetch? else pc.CountReject?
    ensures var s' := Laws.Next(cfg, s, Laws.Ask(now));
            && s'.b == AfterAsk(cfg, s.b, now) && s'.clock == now
            && LiveIs(s', pcs[i := pc], epochs[i := s'.epoch])
  {
    var s' := Laws.Next(cfg, s, Laws.Ask(now));
    forall tag: nat ensures s'.live[tag] == Fetching(pcs[i := pc], epochs[i := s'.epoch], tag) {
      FetchingUpdate(pcs, epochs, i, pc, s'.epoch, tag);
    }
  }

  lemma TellStep(cfg: Config, s: Laws.System, pcs: seq<Pc>, epochs: seq<nat>, i: nat, pc: Pc, ok: bool, now: int)
    requires LiveIs(s, pcs, epochs) && i < |pcs| && pcs[i].TellBreaker? && s.clock <= now
    requires pc.Decide? || pc.CountError?
    ensures var s' := Laws.Next(cfg, s, Laws.Report(epochs[i], ok, now));
            && s'.b == (if ok then AfterSuccess(s.b) else AfterFailure(cfg, s.b, now)) && s'.clock == now
            && LiveIs(s', pcs[i := pc], epochs)
  {
    FetchingAtLeast(pcs, epochs, i);
    assert s.live[epochs[i]] >= 1;
    var s' := Laws.Next(cfg, s, Laws.Report(epochs[i], ok, now));
    forall tag: nat ensures s'.live[tag] == Fetching(pcs[i := pc], epochs, tag) {
      FetchingUpdate(pcs, epochs, i, pc, epochs[i], tag);
      assert epochs[i := epochs[i]] == epochs;
    }
  }

  lemma RunOne(cfg: Config, s: Laws.System, e: Laws.Event)
    ensures Laws.Run(cfg, s, [e]) == Laws.Next(cfg, s, e)
  {
    assert [e][1..] == [];
    assert Laws.Run(cfg, Laws.Next(cfg, s, e), []) == Laws.Next(cfg, s, e);
  }

  // What a thread makes of the breaker's word, and what it tells the breaker.
  lemma AskNext(r: Replica, l2: L2, i: nat, c: Choice)
    requires Shaped(r) && i < |r.pcs| && r.pcs[i].AskBreaker?
    ensures if Admits(r.cfg, r.breaker, Now(r, c)) then NextPc(r, l2, i, c).Fetch? else NextPc(r, l2, i, c).CountReject?
    ensures BreakerAfter(r, i, c) == AfterAsk(r.cfg, r.breaker, Now(r, c))
  {
  }

  lemma TellNext(r: Replica, l2: L2, i: nat, c: Choice, h: Log)
    requires Shaped(r) && i < |r.pcs| && r.pcs[i].TellBreaker? && ResultIs(h, r.pcs[i].result)
    ensures NextPc(r, l2, i, c).Decide? || NextPc(r, l2, i, c).CountError?
    ensures BreakerAfter(r, i, c)
            == (if h.reply.Said? && h.reply.answer.ok then AfterSuccess(r.breaker)
                else AfterFailure(r.cfg, r.breaker, Now(r, c)))
  {
  }

  lemma StepGauged(r: Replica, l2: L2, i: nat, c: Choice, h: Log, g: Gauge)
    requires Inv(r) && i < |r.pcs| == |g.epochs| && Enabled(r, i) && GaugeOk(r, g)
    requires r.pcs[i].TellBreaker? ==> ResultIs(h, r.pcs[i].result)
    ensures GaugeOk(Step(r, l2, i, c), Gauged(r, i, c, h, g))
  {
    var now, pc := Now(r, c), NextPc(r, l2, i, c);
    if r.pcs[i].AskBreaker? {
      RunOne(r.cfg, g.sys, Laws.Ask(now));
      AskNext(r, l2, i, c);
      AskStep(r.cfg, g.sys, r.pcs, g.epochs, i, pc, now);
    } else if r.pcs[i].TellBreaker? {
      var ok := h.reply.Said? && h.reply.answer.ok;
      RunOne(r.cfg, g.sys, Laws.Report(g.epochs[i], ok, now));
      TellNext(r, l2, i, c, h);
      TellStep(r.cfg, g.sys, r.pcs, g.epochs, i, pc, ok, now);
    } else {
      QuietStep(r, l2, i, c, g.sys, g.epochs);
    }
    LiveAfter(r, l2, i, c, Gauged(r, i, c, h, g).sys, Gauged(r, i, c, h, g).epochs);
  }

  lemma ApplyGauged(r: Replica, l2: L2, e: Event, logs: seq<Log>, g: Gauge)
    requires Inv(r) && AllLogged(r, logs) && |g.epochs| == |r.pcs| && GaugeOk(r, g)
    ensures GaugeOk(Apply(r, l2, e), ApplyGauge(r, e, logs, g))
  {
    if Acts(r, e) {
      assert ThreadLogged(r, logs, e.thread);
      StepGauged(r, l2, e.thread, e.choice, logs[e.thread], g);
    }
  }

  lemma {:induction false} RunGauged(r: Replica, l2: L2, events: seq<Event>, logs: seq<Log>, g: Gauge)
    requires Inv(r) && AllLogged(r, logs) && |g.epochs| == |r.pcs| && GaugeOk(r, g)
    ensures GaugeOk(Run(r, l2, events), RunGauge(r, l2, events, logs, g))
    decreases |events|
  {
    if events != [] {
      var e := events[0];
      ApplyGauged(r, l2, e, logs, g);
      ApplyLogged(r, l2, e, logs);
      ApplyInv(r, l2, e);
      RunGauged(Apply(r, l2, e), ApplyL2(r, l2, e), events[1..], ApplyLogs(r, l2, e, logs), ApplyGauge(r, e, logs, g));
    }
  }

  // ---------------------------------------------------------------------------------------------
  // The results.

  function Nothing(reqs: seq<Request>): (logs: seq<Log>)
    ensures |logs| == 2 * |reqs|
  {
    seq(2 * |reqs|, _ => NOTHING)
  }

  function Start0(reqs: seq<Request>): (g: Gauge)
    ensures |g.epochs| == 2 * |reqs|
  {
    Gauge(Laws.START, seq(2 * |reqs|, _ => 0))
  }

  // What the breaker of a replica that has just started is asked and told, and the epochs of its threads.
  function SignalsOf(reqs: seq<Request>, hasL2: bool, cfg: Config, l2: L2, events: seq<Event>): seq<Laws.Event> {
    Signals(Initial(reqs, hasL2, cfg), l2, events, Nothing(reqs), Start0(reqs))
  }

  function EpochsOf(reqs: seq<Request>, hasL2: bool, cfg: Config, l2: L2, events: seq<Event>): (epochs: seq<nat>)
    ensures |epochs| == 2 * |reqs|
  {
    RunGauge(Initial(reqs, hasL2, cfg), l2, events, Nothing(reqs), Start0(reqs)).epochs
  }

  lemma NobodyFetches(pcs: seq<Pc>, epochs: seq<nat>)
    requires |pcs| == |epochs| && forall i :: 0 <= i < |pcs| ==> pcs[i].Start? || pcs[i].Idle?
    ensures LiveIs(Laws.START, pcs, epochs)
  {
    forall tag: nat ensures Fetching(pcs, epochs, tag) == 0 {
      SumConstant(Probes(pcs, epochs), (p: Probe) => InEpoch(p, tag), 0);
    }
  }

  // In every run of a replica its breaker is where the asks and reports of its threads have brought it, and the calls
  // it is waiting for are the threads that are fetching.
  lemma BreakerFollows(reqs: seq<Request>, hasL2: bool, cfg: Config, l2: L2, events: seq<Event>)
    ensures var r := Run(Initial(reqs, hasL2, cfg), l2, events);
            var s := Laws.Run(cfg, Laws.START, SignalsOf(reqs, hasL2, cfg, l2, events));
            && s.b == r.breaker && s.clock <= r.clock
            && LiveIs(s, r.pcs, EpochsOf(reqs, hasL2, cfg, l2, events))
            && Laws.NotStranded(cfg, s)
  {
    var r0 := Initial(reqs, hasL2, cfg);
    InitialInv(reqs, hasL2, cfg);
    InitialLogged(reqs, hasL2, cfg);
    NobodyFetches(r0.pcs, Start0(reqs).epochs);
    RunGauged(r0, l2, events, Nothing(reqs), Start0(reqs));
    GaugeIsRun(r0, l2, events, Nothing(reqs), Start0(reqs));
    Laws.NeverStranded(cfg, Laws.START, SignalsOf(reqs, hasL2, cfg, l2, events));
  }

  lemma {:induction false} SomeoneFetches(pcs: seq<Pc>, epochs: seq<nat>, tag: nat) returns (i: nat)
    requires |pcs| == |epochs| && Fetching(pcs, epochs, tag) >= 1
    ensures i < |pcs| && Probing(pcs[i]) == 1 && epochs[i] == tag
    decreases |pcs|
  {
    if pcs != [] {
      if InEpoch(Probe(pcs[0], epochs[0]), tag) == 1 {
        return 0;
      }
      assert Probes(pcs, epochs)[1..] == Probes(pcs[1..], epochs[1..]);
      i := SomeoneFetches(pcs[1..], epochs[1..], tag);
      i := i + 1;
    }
  }

  // While the breaker is half-open a thread is fetching whose result will move it on.
  lemma HalfOpenIsWatched(reqs: seq<Request>, hasL2: bool, cfg: Config, l2: L2, events: seq<Event>) returns (i: nat)
    requires Run(Initial(reqs, hasL2, cfg), l2, events).breaker.mode == HalfOpen
    ensures var r := Run(Initial(reqs, hasL2, cfg), l2, events);
            i < |r.pcs| && (r.pcs[i].Fetch? || r.pcs[i].Observe? || r.pcs[i].TellBreaker?)
  {
    BreakerFollows(reqs, hasL2, cfg, l2, events);
    var s := Laws.Run(cfg, Laws.START, SignalsOf(reqs, hasL2, cfg, l2, events));
    var r := Run(Initial(reqs, hasL2, cfg), l2, events);
    i := SomeoneFetches(r.pcs, EpochsOf(reqs, hasL2, cfg, l2, events), s.epoch);
  }

  // A thread that asks goes on to fetch exactly when the breaker is closed, or has been open for a full period, or is
  // half-open and has let fewer than maxProbes through in this epoch.
  lemma FetchesExactly(reqs: seq<Request>, hasL2: bool, cfg: Config, l2: L2, events: seq<Event>, now2: L2, i: nat,
                       c: Choice)
    requires i < |Run(Initial(reqs, hasL2, cfg), l2, events).pcs|
    requires Run(Initial(reqs, hasL2, cfg), l2, events).pcs[i].AskBreaker?
    ensures var r := Run(Initial(reqs, hasL2, cfg), l2, events);
            var s := Laws.Run(cfg, Laws.START, SignalsOf(reqs, hasL2, cfg, l2, events));
            NextPc(r, now2, i, c).Fetch? <==>
              || r.breaker.mode == Closed
              || (r.breaker.mode == Open && Now(r, c) - s.since >= cfg.openMs * NS_PER_MS)
              || (r.breaker.mode == HalfOpen && s.probed < cfg.maxProbes)
  {
    BreakerFollows(reqs, hasL2, cfg, l2, events);
    var r := Run(Initial(reqs, hasL2, cfg), l2, events);
    Laws.AdmitsExactly(cfg, SignalsOf(reqs, hasL2, cfg, l2, events), Now(r, c));
    KeepsConfig(Initial(reqs, hasL2, cfg), l2, events);
    AskNext(r, now2, i, c);
  }

  lemma {:induction false} KeepsConfig(r: Replica, l2: L2, events: seq<Event>)
    requires Shaped(r)
    ensures Run(r, l2, events).cfg == r.cfg
    decreases |events|
  {
    if events != [] {
      KeepsConfig(Apply(r, l2, events[0]), ApplyL2(r, l2, events[0]), events[1..]);
    }
  }
}
