// Each counter says exactly how many threads the thing it counts has happened to.
module Tallies {
  import opened CircuitBreakers
  import opened InFlight
  import opened RequestMachine
  import opened SingleFlight
  import opened Accounting
  import opened Answers

  // A thread with its history; whether it serves a request that is passed on.
  datatype Item = Item(pc: Pc, log: Log, passing: bool)

  function Items(r: Replica, logs: seq<Log>): (items: seq<Item>)
    requires Shaped(r) && |logs| == |r.pcs|
    ensures |items| == |r.pcs|
    ensures forall i :: 0 <= i < |items| ==> items[i] == ItemAt(r, logs, i)
  {
    seq(|r.pcs|, i requires 0 <= i < |r.pcs| => ItemAt(r, logs, i))
  }

  function ItemAt(r: Replica, logs: seq<Log>, i: nat): Item
    requires Shaped(r) && |logs| == |r.pcs| && i < |r.pcs|
  {
    Item(r.pcs[i], logs[i], i < |r.reqs| && !RequestOf(r, i).cacheable)
  }

  // What has happened to the thread and been counted.

  function HitOf(t: Item): nat {
    if !t.pc.CountHit? && !t.pc.CountStaleHit? && (Hit(t.log, Fresh) || Hit(t.log, Stale)) then 1 else 0
  }

  function StaleOf(t: Item): nat {
    if !t.pc.CountHit? && !t.pc.CountStaleHit? && !t.pc.CountStale? && Hit(t.log, Stale) then 1 else 0
  }

  function MissOf(t: Item): nat {
    if t.passing then (if t.pc.Start? then 0 else 1)
    else if Missed(t.log) && !t.pc.CountMiss? then 1
    else 0
  }

  function SecondHitOf(t: Item): nat {
    if t.log.second.Had? && !t.pc.CountL2Hit? then 1 else 0
  }

  function SecondMissOf(t: Item): nat {
    if t.log.second.Empty? && !t.pc.CountL2Miss? then 1 else 0
  }

  function RejectOf(t: Item): nat {
    if t.log.gate.Refused? && !t.pc.CountReject? then 1 else 0
  }

  function FetchOf(t: Item): nat {
    if t.log.reply.Said? && !t.pc.Observe? then 1 else 0
  }

  function ErrorOf(t: Item): nat {
    if t.log.reply.Said? && !t.log.reply.answer.ok && !t.pc.Observe? && !t.pc.TellBreaker? && !t.pc.CountError? then 1
    else 0
  }

  ghost predicate Tallied(n: Counters, items: seq<Item>) {
    && n.hits == Sum(items, HitOf) && n.misses == Sum(items, MissOf) && n.staleServed == Sum(items, StaleOf)
    && n.originFetches == Sum(items, FetchOf) && n.originErrors == Sum(items, ErrorOf)
    && n.circuitRejects == Sum(items, RejectOf)
    && n.l2Hits == Sum(items, SecondHitOf) && n.l2Misses == Sum(items, SecondMissOf)
  }

  // What a step does to the counters it does to the thread.
  predicate Matches(n: Counters, n': Counters, t: Item, t': Item) {
    && n'.hits + HitOf(t) == n.hits + HitOf(t')
    && n'.misses + MissOf(t) == n.misses + MissOf(t')
    && n'.staleServed + StaleOf(t) == n.staleServed + StaleOf(t')
    && n'.originFetches + FetchOf(t) == n.originFetches + FetchOf(t')
    && n'.originErrors + ErrorOf(t) == n.originErrors + ErrorOf(t')
    && n'.circuitRejects + RejectOf(t) == n.circuitRejects + RejectOf(t')
    && n'.l2Hits + SecondHitOf(t) == n.l2Hits + SecondHitOf(t')
    && n'.l2Misses + SecondMissOf(t) == n.l2Misses + SecondMissOf(t')
  }

  lemma ReaderMatches(r: Replica, l2: L2, i: nat, c: Choice, h: Log)
    requires Shaped(r) && i < |r.pcs| && AtL2(r.pcs[i])
    requires FetcherLogged(r.pcs[i], h, i < |r.reqs|, RequestOf(r, i).cacheable, r.hasL2)
    ensures Matches(r.counters, CountersAfter(r, i), Item(r.pcs[i], h, false),
                    Item(FetchNext(r, l2, i, c), MetFetching(r, l2, i, c, h), false))
  {
  }

  predicate AtGate(pc: Pc) {
    pc.CountL2Miss? || pc.AskBreaker? || pc.CountReject?
  }

  lemma GateMatches(r: Replica, l2: L2, i: nat, c: Choice, h: Log, passing: bool)
    requires Shaped(r) && i < |r.pcs| && AtGate(r.pcs[i])
    requires FetcherLogged(r.pcs[i], h, i < |r.reqs|, RequestOf(r, i).cacheable, r.hasL2)
    ensures Matches(r.counters, CountersAfter(r, i), Item(r.pcs[i], h, passing),
                    Item(FetchNext(r, l2, i, c), MetFetching(r, l2, i, c, h), passing))
  {
  }

  lemma FetcherMatches(r: Replica, l2: L2, i: nat, c: Choice, h: Log, passing: bool)
    requires Shaped(r) && i < |r.pcs| && AtOrigin(r.pcs[i]) && !AtGate(r.pcs[i])
    requires FetcherLogged(r.pcs[i], h, i < |r.reqs|, RequestOf(r, i).cacheable, r.hasL2)
    ensures Matches(r.counters, CountersAfter(r, i), Item(r.pcs[i], h, passing),
                    Item(FetchNext(r, l2, i, c), MetFetching(r, l2, i, c, h), passing))
  {
  }

  lemma StorerMatches(r: Replica, l2: L2, i: nat, c: Choice, h: Log, passing: bool)
    requires Shaped(r) && i < |r.pcs| && (AtStores(r.pcs[i]) || r.pcs[i].Erase?)
    ensures Matches(r.counters, CountersAfter(r, i), Item(r.pcs[i], h, passing),
                    Item(FetchNext(r, l2, i, c), MetFetching(r, l2, i, c, h), passing))
  {
  }

  lemma FailMatches(r: Replica, l2: L2, i: nat, c: Choice, h: Log, passing: bool)
    requires Shaped(r) && i < |r.pcs| && r.pcs[i].Fail? && CarriedOk(r.pcs[i])
    ensures Matches(r.counters, CountersAfter(r, i), Item(r.pcs[i], h, passing),
                    Item(FetchNext(r, l2, i, c), MetFetching(r, l2, i, c, h), passing))
  {
  }

  lemma WaiterMatches(r: Replica, i: nat, c: Choice, h: Log, passing: bool)
    requires Shaped(r) && i < |r.pcs| && Enabled(r, i) && OnSlot(r.pcs[i])
    ensures Matches(r.counters, CountersAfter(r, i), Item(r.pcs[i], h, passing),
                    Item(SlotNext(r, i, c), MetWaiting(r, i, c, h), passing))
  {
  }

  lemma ServerMatches(r: Replica, i: nat, c: Choice, h: Log)
    requires Shaped(r) && i < |r.pcs| && Enabled(r, i) && RoleOf(r.pcs[i]).None? && !OnSlot(r.pcs[i])
    requires ServerLogged(r.pcs[i], h, i < |r.reqs|, RequestOf(r, i).cacheable, r.hasL2)
    ensures var passing := i < |r.reqs| && !RequestOf(r, i).cacheable;
            Matches(r.counters, CountersAfter(r, i), Item(r.pcs[i], h, passing),
                    Item(ServeNext(r, i, c), MetServing(r, i, c, h), passing))
  {
  }

  lemma FetchingMatches(r: Replica, l2: L2, i: nat, c: Choice, h: Log)
    requires Shaped(r) && i < |r.pcs| && RoleOf(r.pcs[i]).Some? && CarriedOk(r.pcs[i])
    requires FetcherLogged(r.pcs[i], h, i < |r.reqs|, RequestOf(r, i).cacheable, r.hasL2)
    ensures var passing := i < |r.reqs| && !RequestOf(r, i).cacheable;
            Matches(r.counters, CountersAfter(r, i), Item(r.pcs[i], h, passing),
                    Item(FetchNext(r, l2, i, c), MetFetching(r, l2, i, c, h), passing))
  {
    var passing := i < |r.reqs| && !RequestOf(r, i).cacheable;
    if AtL2(r.pcs[i]) {
      ReaderMatches(r, l2, i, c, h);
    } else if AtGate(r.pcs[i]) {
      GateMatches(r, l2, i, c, h, passing);
    } else if AtOrigin(r.pcs[i]) {
      FetcherMatches(r, l2, i, c, h, passing);
    } else if r.pcs[i].Fail? {
      FailMatches(r, l2, i, c, h, passing);
    } else {
      StorerMatches(r, l2, i, c, h, passing);
    }
  }

  lemma ThreadMatches(r: Replica, l2: L2, i: nat, c: Choice, logs: seq<Log>)
    requires Inv(r) && i < |r.pcs| && Enabled(r, i) && |logs| == |r.pcs| && ThreadLogged(r, logs, i)
    ensures var passing := i < |r.reqs| && !RequestOf(r, i).cacheable;
            Matches(r.counters, CountersAfter(r, i), Item(r.pcs[i], logs[i], passing),
                    Item(NextPc(r, l2, i, c), Met(r, l2, i, c, logs[i]), passing))
  {
    assert ThreadOk(r, i);
    if RoleOf(r.pcs[i]).Some? {
      FetchingMatches(r, l2, i, c, logs[i]);
    } else if OnSlot(r.pcs[i]) {
      WaiterMatches(r, i, c, logs[i], i < |r.reqs| && !RequestOf(r, i).cacheable);
    } else {
      ServerMatches(r, i, c, logs[i]);
    }
  }

  lemma TallyMoves(n: Counters, n': Counters, items: seq<Item>, i: nat, t: Item)
    requires i < |items| && Tallied(n, items) && Matches(n, n', items[i], t)
    ensures Tallied(n', items[i := t])
  {
    SumUpdate(items, i, t, HitOf);
    SumUpdate(items, i, t, MissOf);
    SumUpdate(items, i, t, StaleOf);
    SumUpdate(items, i, t, FetchOf);
    SumUpdate(items, i, t, ErrorOf);
    SumUpdate(items, i, t, RejectOf);
    SumUpdate(items, i, t, SecondHitOf);
    SumUpdate(items, i, t, SecondMissOf);
  }

  // The items after a step: the thread's own, and that of the revalidation it may start.
  function ItemsAfter(r: Replica, l2: L2, i: nat, c: Choice, logs: seq<Log>): seq<Item>
    requires Shaped(r) && |logs| == |r.pcs| && i < |r.pcs| && Enabled(r, i)
  {
    var t := Item(NextPc(r, l2, i, c), Met(r, l2, i, c, logs[i]), i < |r.reqs| && !RequestOf(r, i).cacheable);
    var items := Items(r, logs)[i := t];
    if Spawns(r, i) then items[|r.reqs| + i := Started(r, i, logs)] else items
  }

  function Started(r: Replica, i: nat, logs: seq<Log>): Item
    requires Shaped(r) && |logs| == |r.pcs| && i < |r.pcs| && Spawns(r, i)
  {
    Item(AskBreaker(Revalidating(SlotFor(r.reg, KeyOf(r, i)))), logs[|r.reqs| + i], false)
  }

  lemma ItemsStep(r: Replica, l2: L2, i: nat, c: Choice, logs: seq<Log>)
    requires Shaped(r) && |logs| == |r.pcs| && i < |r.pcs| && Enabled(r, i)
    ensures Items(Step(r, l2, i, c), logs[i := Met(r, l2, i, c, logs[i])]) == ItemsAfter(r, l2, i, c, logs)
  {
  }

  lemma StartedMatches(n: Counters, t: Item, h: Log, role: Role, hasL2: bool)
    requires t == Item(Idle, h, false) && ServerLogged(Idle, h, false, true, hasL2)
    ensures Matches(n, n, t, Item(AskBreaker(role), h, false))
  {
  }

  lemma SpawnMatches(r: Replica, i: nat, logs: seq<Log>, n: Counters)
    requires Inv(r) && AllLogged(r, logs) && i < |r.pcs| && Spawns(r, i)
    ensures |r.reqs| + i < |r.pcs| && Matches(n, n, Items(r, logs)[|r.reqs| + i], Started(r, i, logs))
  {
    assert ThreadOk(r, i) && ThreadLogged(r, logs, |r.reqs| + i);
    var w, role := |r.reqs| + i, Revalidating(SlotFor(r.reg, KeyOf(r, i)));
    StartedMatches(n, Items(r, logs)[w], logs[w], role, r.hasL2);
  }

  lemma StepTallied(r: Replica, l2: L2, i: nat, c: Choice, logs: seq<Log>)
    requires Inv(r) && AllLogged(r, logs) && i < |r.pcs| && Enabled(r, i) && Tallied(r.counters, Items(r, logs))
    ensures Tallied(CountersAfter(r, i), ItemsAfter(r, l2, i, c, logs))
  {
    assert ThreadLogged(r, logs, i);
    ThreadMatches(r, l2, i, c, logs);
    var t := Item(NextPc(r, l2, i, c), Met(r, l2, i, c, logs[i]), i < |r.reqs| && !RequestOf(r, i).cacheable);
    TallyMoves(r.counters, CountersAfter(r, i), Items(r, logs), i, t);
    if Spawns(r, i) {
      SpawnMatches(r, i, logs, CountersAfter(r, i));
      TallyMoves(CountersAfter(r, i), CountersAfter(r, i), Items(r, logs)[i := t], |r.reqs| + i, Started(r, i, logs));
    }
  }

  lemma {:induction false} RunTallied(r: Replica, l2: L2, events: seq<Event>, logs: seq<Log>)
    requires Inv(r) && AllLogged(r, logs) && Tallied(r.counters, Items(r, logs))
    ensures Tallied(Run(r, l2, events).counters, Items(Run(r, l2, events), RunLogs(r, l2, events, logs)))
    decreases |events|
  {
    if events != [] {
      var e := events[0];
      if e.Act? && e.thread < |r.pcs| && Enabled(r, e.thread) {
        StepTallied(r, l2, e.thread, e.choice, logs);
        ItemsStep(r, l2, e.thread, e.choice, logs);
      } else {
        assert Items(Apply(r, l2, e), logs) == Items(r, logs);
      }
      ApplyLogged(r, l2, e, logs);
      ApplyInv(r, l2, e);
      RunTallied(Apply(r, l2, e), ApplyL2(r, l2, e), events[1..], ApplyLogs(r, l2, e, logs));
    }
  }

  lemma InitialTallied(reqs: seq<Request>, hasL2: bool, cfg: Config)
    ensures Tallied(Initial(reqs, hasL2, cfg).counters, Items(Initial(reqs, hasL2, cfg), seq(2 * |reqs|, _ => NOTHING)))
  {
    var items := Items(Initial(reqs, hasL2, cfg), seq(2 * |reqs|, _ => NOTHING));
    SumConstant(items, HitOf, 0);
    SumConstant(items, MissOf, 0);
    SumConstant(items, StaleOf, 0);
    SumConstant(items, FetchOf, 0);
    SumConstant(items, ErrorOf, 0);
    SumConstant(items, RejectOf, 0);
    SumConstant(items, SecondHitOf, 0);
    SumConstant(items, SecondMissOf, 0);
  }

  lemma {:induction false} SumsAgree<S, T>(a: seq<S>, v: S -> nat, b: seq<T>, w: T -> nat)
    requires |a| == |b| && forall i :: 0 <= i < |a| ==> v(a[i]) == w(b[i])
    ensures Sum(a, v) == Sum(b, w)
  {
    if a != [] {
      SumsAgree(a[1..], v, b[1..], w);
    }
  }

  function One(b: bool): nat {
    if b then 1 else 0
  }

  // When all work is done every counter is the number of threads whose history has what it counts.
  lemma ExactCounters(reqs: seq<Request>, hasL2: bool, cfg: Config, l2: L2, events: seq<Event>)
    requires Finished(Run(Initial(reqs, hasL2, cfg), l2, events))
    ensures var n := Run(Initial(reqs, hasL2, cfg), l2, events).counters;
            var logs := Logs(reqs, hasL2, cfg, l2, events);
            && n.hits == Sum(logs, (h: Log) => One(Hit(h, Fresh) || Hit(h, Stale)))
            && n.misses == |reqs| - n.hits
            && n.staleServed == Sum(logs, (h: Log) => One(Hit(h, Stale)))
            && n.originFetches == Sum(logs, (h: Log) => One(h.reply.Said?))
            && n.originErrors == Sum(logs, (h: Log) => One(h.reply.Said? && !h.reply.answer.ok))
            && n.circuitRejects == Sum(logs, (h: Log) => One(h.gate.Refused?))
            && n.l2Hits == Sum(logs, (h: Log) => One(h.second.Had?))
            && n.l2Misses == Sum(logs, (h: Log) => One(h.second.Empty?))
  {
    AlwaysTallied(reqs, hasL2, cfg, l2, events);
    QuiescentAccounting(reqs, hasL2, cfg, l2, events);
    FinalCounts(Run(Initial(reqs, hasL2, cfg), l2, events), Logs(reqs, hasL2, cfg, l2, events));
  }

  lemma AlwaysTallied(reqs: seq<Request>, hasL2: bool, cfg: Config, l2: L2, events: seq<Event>)
    ensures var r := Run(Initial(reqs, hasL2, cfg), l2, events);
            |r.pcs| == 2 * |reqs| && Tallied(r.counters, Items(r, Logs(reqs, hasL2, cfg, l2, events)))
  {
    InitialInv(reqs, hasL2, cfg);
    InitialLogged(reqs, hasL2, cfg);
    InitialTallied(reqs, hasL2, cfg);
    RunTallied(Initial(reqs, hasL2, cfg), l2, events, seq(2 * |reqs|, _ => NOTHING));
  }

  lemma FinalCounts(r: Replica, logs: seq<Log>)
    requires Shaped(r) && |logs| == |r.pcs| && Finished(r) && Tallied(r.counters, Items(r, logs))
    ensures var n := r.counters;
            && n.hits == Sum(logs, (h: Log) => One(Hit(h, Fresh) || Hit(h, Stale)))
            && n.staleServed == Sum(logs, (h: Log) => One(Hit(h, Stale)))
            && n.originFetches == Sum(logs, (h: Log) => One(h.reply.Said?))
            && n.originErrors == Sum(logs, (h: Log) => One(h.reply.Said? && !h.reply.answer.ok))
            && n.circuitRejects == Sum(logs, (h: Log) => One(h.gate.Refused?))
            && n.l2Hits == Sum(logs, (h: Log) => One(h.second.Had?))
            && n.l2Misses == Sum(logs, (h: Log) => One(h.second.Empty?))
  {
    var items := Items(r, logs);
    SumsAgree(items, HitOf, logs, (h: Log) => One(Hit(h, Fresh) || Hit(h, Stale)));
    SumsAgree(items, StaleOf, logs, (h: Log) => One(Hit(h, Stale)));
    SumsAgree(items, FetchOf, logs, (h: Log) => One(h.reply.Said?));
    SumsAgree(items, ErrorOf, logs, (h: Log) => One(h.reply.Said? && !h.reply.answer.ok));
    SumsAgree(items, RejectOf, logs, (h: Log) => One(h.gate.Refused?));
    SumsAgree(items, SecondHitOf, logs, (h: Log) => One(h.second.Had?));
    SumsAgree(items, SecondMissOf, logs, (h: Log) => One(h.second.Empty?));
  }
}
