// Exact accounting: the counters and the threads.
module Accounting {
  // How the replica's counters relate to what its threads are doing, in every reachable state, and so what they add up
  // to when all work is done.

  import opened CircuitBreakers
  import opened InFlight
  import opened RequestMachine
  import opened SingleFlight

  function Sum<T>(items: seq<T>, weight: T -> nat): nat {
    if items == [] then 0 else weight(items[0]) + Sum(items[1..], weight)
  }

  lemma {:induction false} SumUpdate<T>(items: seq<T>, i: nat, x: T, weight: T -> nat)
    requires i < |items|
    ensures Sum(items[i := x], weight) + weight(items[i]) == Sum(items, weight) + weight(x)
  {
    if i == 0 {
      assert items[0 := x][1..] == items[1..];
    } else {
      assert items[i := x][1..] == items[1..][i - 1 := x];
      SumUpdate(items[1..], i - 1, x, weight);
    }
  }

  lemma {:induction false} SumConstant<T>(items: seq<T>, weight: T -> nat, x: nat)
    requires forall i :: 0 <= i < |items| ==> weight(items[i]) == x
    ensures Sum(items, weight) == x * |items|
  {
    if items != [] {
      SumConstant(items[1..], weight, x);
    }
  }

  // The request's hit or miss has been counted.
  function Counted(pc: Pc): nat {
    match pc
    case Start => 0
    case Lookup(_) => 0
    case CountHit(_) => 0
    case CountStaleHit(_) => 0
    case CountMiss(_, _) => 0
    case _ => 1
  }

  // A miss or a stale hit that has not yet been answered by L2, the breaker, the origin or another thread.
  function Owed(pc: Pc): nat {
    match pc
    case Trigger(_) => 1
    case Acquire(_, _) => 1
    case ReadL2(_) => 1
    case CountL2Hit(_, _) => 1
    case CountL2Miss(_) => 1
    case AskBreaker(_) => 1
    case CountReject(_) => 1
    case Fetch(_) => 1
    case Observe(_, _) => 1
    case _ => 0
  }

  // Hits that are not counted as stale: fresh ones, and stale ones about to be.
  function NotStale(pc: Pc): nat {
    match pc
    case CountStale(_) => 1
    case Done(_, FromHit) => 1
    case _ => 0
  }

  // A fetch the breaker has admitted and not yet heard about.
  function Probing(pc: Pc): nat {
    if pc.Fetch? || pc.Observe? || pc.TellBreaker? then 1 else 0
  }

  // A failed fetch that is not yet counted as an origin error.
  function Failing(pc: Pc): nat {
    match pc
    case TellBreaker(_, None) => 1
    case CountError(_) => 1
    case _ => 0
  }

  ghost predicate Balanced(r: Replica)
    requires Shaped(r)
  {
    RequestsBalance(r) && FetchesBalance(r) && StaleBalances(r) && ErrorsBalance(r) && ProbesBalance(r)
  }

  ghost predicate RequestsBalance(r: Replica)
    requires Shaped(r)
  {
    r.counters.hits + r.counters.misses == Sum(r.pcs[..|r.reqs|], Counted)
  }

  ghost predicate FetchesBalance(r: Replica) {
    var n := r.counters;
    n.misses + n.staleServed
    == n.originFetches + n.circuitRejects + n.l2Hits + r.reg.coalesced + Sum(r.pcs, Owed)
  }

  ghost predicate StaleBalances(r: Replica) {
    r.counters.hits == r.counters.staleServed + Sum(r.pcs, NotStale)
  }

  ghost predicate ErrorsBalance(r: Replica) {
    r.counters.originErrors + Sum(r.pcs, Failing) <= r.counters.originFetches
  }

  ghost predicate ProbesBalance(r: Replica) {
    r.breaker.mode == HalfOpen ==> 1 <= r.breaker.probes <= Sum(r.pcs, Probing)
  }

  lemma InitialBalanced(reqs: seq<Request>, hasL2: bool, cfg: Config)
    ensures Balanced(Initial(reqs, hasL2, cfg))
  {
    var r := Initial(reqs, hasL2, cfg);
    SumConstant(r.pcs[..|reqs|], Counted, 0);
    SumConstant(r.pcs, Owed, 0);
    SumConstant(r.pcs, NotStale, 0);
    SumConstant(r.pcs, Failing, 0);
  }

  predicate WorkerIdle(r: Replica, i: nat)
    requires Shaped(r) && i < |r.pcs|
  {
    Spawns(r, i) ==> r.pcs[|r.reqs| + i].Idle?
  }

  // A weight's total after a step: thread i's share changes, and so does the share of the revalidation
  // thread it starts.
  lemma SumAfter(r: Replica, l2: L2, i: nat, c: Choice, weight: Pc -> nat)
    requires Shaped(r) && i < |r.pcs| && Enabled(r, i) && WorkerIdle(r, i)
    requires weight(Idle) == 0
    ensures var pc := NextPc(r, l2, i, c);
            Sum(PcsAfter(r, l2, i, c), weight) + weight(r.pcs[i])
            == Sum(r.pcs, weight) + weight(pc)
               + (if Spawns(r, i) then weight(AskBreaker(Revalidating(SlotFor(r.reg, KeyOf(r, i))))) else 0)
  {
    var pc := NextPc(r, l2, i, c);
    SumUpdate(r.pcs, i, pc, weight);
    if Spawns(r, i) {
      SumUpdate(r.pcs[i := pc], |r.reqs| + i, AskBreaker(Revalidating(SlotFor(r.reg, KeyOf(r, i)))), weight);
    }
  }

  lemma CountedAfter(r: Replica, l2: L2, i: nat, c: Choice)
    requires Shaped(r) && i < |r.pcs| && Enabled(r, i)
    ensures Sum(PcsAfter(r, l2, i, c)[..|r.reqs|], Counted) + (if i < |r.reqs| then Counted(r.pcs[i]) else 0)
            == Sum(r.pcs[..|r.reqs|], Counted) + (if i < |r.reqs| then Counted(NextPc(r, l2, i, c)) else 0)
  {
    var pc := NextPc(r, l2, i, c);
    if i < |r.reqs| {
      SumUpdate(r.pcs[..|r.reqs|], i, pc, Counted);
      assert PcsAfter(r, l2, i, c)[..|r.reqs|] == r.pcs[..|r.reqs|][i := pc];
    } else {
      assert PcsAfter(r, l2, i, c)[..|r.reqs|] == r.pcs[..|r.reqs|];
    }
  }

  // What one step does to the counters is what it does to the shares.
  lemma ServeShares(r: Replica, i: nat, c: Choice)
    requires Shaped(r) && i < |r.pcs| && Enabled(r, i) && RoleOf(r.pcs[i]).None? && !OnSlot(r.pcs[i])
    requires PcOk(r.pcs[i], i, i < |r.reqs|, KeyOf(r, i), r.reg)
    ensures SharesMatch(r, i, ServeNext(r, i, c))
  {
  }

  lemma FetchShares(r: Replica, l2: L2, i: nat, c: Choice)
    requires Shaped(r) && i < |r.pcs| && RoleOf(r.pcs[i]).Some?
    requires Typed(r.pcs[i], i < |r.reqs|) && OwnOk(OwnSlot(r.pcs[i]), i, KeyOf(r, i), r.reg) && CarriedOk(r.pcs[i])
    ensures SharesMatch(r, i, FetchNext(r, l2, i, c))
  {
  }

  lemma SlotShares(r: Replica, i: nat, c: Choice)
    requires Shaped(r) && i < |r.pcs| && Enabled(r, i) && OnSlot(r.pcs[i])
    ensures SharesMatch(r, i, SlotNext(r, i, c))
  {
  }

  lemma NextShares(r: Replica, l2: L2, i: nat, c: Choice)
    requires Inv(r) && i < |r.pcs| && Enabled(r, i)
    ensures SharesMatch(r, i, NextPc(r, l2, i, c))
  {
    assert ThreadOk(r, i);
    if RoleOf(r.pcs[i]).Some? {
      FetchShares(r, l2, i, c);
    } else if OnSlot(r.pcs[i]) {
      SlotShares(r, i, c);
    } else {
      ServeShares(r, i, c);
    }
  }

  predicate SharesMatch(r: Replica, i: nat, pc: Pc)
    requires Shaped(r) && i < |r.pcs| && Enabled(r, i)
  {
    var before := r.pcs[i];
    var n := r.counters;
    var n' := CountersAfter(r, i);
    var spawned := if Spawns(r, i) then 1 else 0;
    && n'.hits + n'.misses + (if i < |r.reqs| then Counted(before) else 0)
       == n.hits + n.misses + (if i < |r.reqs| then Counted(pc) else 0)
    && n'.misses + n'.staleServed + Owed(before)
       + n.originFetches + n.circuitRejects + n.l2Hits + r.reg.coalesced
       == n.misses + n.staleServed + Owed(pc) + spawned
          + n'.originFetches + n'.circuitRejects + n'.l2Hits + RegAfter(r, i).coalesced
    && n'.hits + NotStale(before) + n.staleServed == n.hits + NotStale(pc) + n'.staleServed
    && n'.originErrors + Failing(pc) + n.originFetches <= n.originErrors + Failing(before) + n'.originFetches
  }

  // A half-open breaker is waiting for threads that are still fetching.
  predicate ProbesCovered(r: Replica, l2: L2, i: nat, c: Choice)
    requires Shaped(r) && i < |r.pcs| && Enabled(r, i)
  {
    var b := BreakerAfter(r, i, c);
    b.mode == HalfOpen ==>
      1 <= b.probes && b.probes + Probing(r.pcs[i]) <= Sum(r.pcs, Probing) + Probing(NextPc(r, l2, i, c))
  }

  lemma BreakerShares(r: Replica, l2: L2, i: nat, c: Choice)
    requires Shaped(r) && Balanced(r) && i < |r.pcs| && Enabled(r, i)
    ensures ProbesCovered(r, l2, i, c)
  {
  }

  lemma RequestsRebalance(r: Replica, l2: L2, i: nat, c: Choice)
    requires Shaped(r) && RequestsBalance(r) && i < |r.pcs| && Enabled(r, i) && WorkerIdle(r, i)
    requires SharesMatch(r, i, NextPc(r, l2, i, c))
    ensures RequestsBalance(Step(r, l2, i, c))
  {
    CountedAfter(r, l2, i, c);
  }

  lemma FetchesRebalance(r: Replica, l2: L2, i: nat, c: Choice)
    requires Shaped(r) && FetchesBalance(r) && i < |r.pcs| && Enabled(r, i) && WorkerIdle(r, i)
    requires SharesMatch(r, i, NextPc(r, l2, i, c))
    ensures FetchesBalance(Step(r, l2, i, c))
  {
    SumAfter(r, l2, i, c, Owed);
  }

  lemma StaleRebalances(r: Replica, l2: L2, i: nat, c: Choice)
    requires Shaped(r) && StaleBalances(r) && i < |r.pcs| && Enabled(r, i) && WorkerIdle(r, i)
    requires SharesMatch(r, i, NextPc(r, l2, i, c))
    ensures StaleBalances(Step(r, l2, i, c))
  {
    SumAfter(r, l2, i, c, NotStale);
  }

  lemma ErrorsRebalance(r: Replica, l2: L2, i: nat, c: Choice)
    requires Shaped(r) && ErrorsBalance(r) && i < |r.pcs| && Enabled(r, i) && WorkerIdle(r, i)
    requires SharesMatch(r, i, NextPc(r, l2, i, c))
    ensures ErrorsBalance(Step(r, l2, i, c))
  {
    SumAfter(r, l2, i, c, Failing);
  }

  lemma ProbesRebalance(r: Replica, l2: L2, i: nat, c: Choice)
    requires Shaped(r) && i < |r.pcs| && Enabled(r, i) && WorkerIdle(r, i) && ProbesCovered(r, l2, i, c)
    ensures ProbesBalance(Step(r, l2, i, c))
  {
    SumAfter(r, l2, i, c, Probing);
  }

  lemma Rebalance(r: Replica, l2: L2, i: nat, c: Choice)
    requires Shaped(r) && Balanced(r) && i < |r.pcs| && Enabled(r, i) && WorkerIdle(r, i)
    requires SharesMatch(r, i, NextPc(r, l2, i, c)) && ProbesCovered(r, l2, i, c)
    ensures Balanced(Step(r, l2, i, c))
  {
    RequestsRebalance(r, l2, i, c);
    FetchesRebalance(r, l2, i, c);
    StaleRebalances(r, l2, i, c);
    ErrorsRebalance(r, l2, i, c);
    ProbesRebalance(r, l2, i, c);
  }

  lemma StepBalanced(r: Replica, l2: L2, i: nat, c: Choice)
    requires Inv(r) && Balanced(r) && i < |r.pcs| && Enabled(r, i)
    ensures Balanced(Step(r, l2, i, c))
  {
    assert ThreadOk(r, i);
    NextShares(r, l2, i, c);
    BreakerShares(r, l2, i, c);
    Rebalance(r, l2, i, c);
  }

  lemma {:induction false} RunBalanced(r: Replica, l2: L2, events: seq<Event>)
    requires Inv(r) && Balanced(r)
    ensures Balanced(Run(r, l2, events))
    decreases |events|
  {
    if events != [] {
      var e := events[0];
      if e.Act? && e.thread < |r.pcs| && Enabled(r, e.thread) {
        StepBalanced(r, l2, e.thread, e.choice);
      }
      ApplyInv(r, l2, e);
      RunBalanced(Apply(r, l2, e), ApplyL2(r, l2, e), events[1..]);
    }
  }

  // When every request and every revalidation has finished: each request was counted once, every miss and
  // every stale hit was settled by exactly one origin fetch, breaker rejection, L2 hit or coalescing, and
  // the breaker is not left half-open.
  lemma QuiescentAccounting(reqs: seq<Request>, hasL2: bool, cfg: Config, l2: L2, events: seq<Event>)
    requires Finished(Run(Initial(reqs, hasL2, cfg), l2, events))
    ensures var r := Run(Initial(reqs, hasL2, cfg), l2, events);
            var n := r.counters;
            && n.hits + n.misses == |reqs|
            && n.originFetches + n.circuitRejects + n.l2Hits + r.reg.coalesced == n.misses + n.staleServed
            && n.staleServed <= n.hits
            && n.originErrors <= n.originFetches
            && r.breaker.mode != HalfOpen
  {
    InitialInv(reqs, hasL2, cfg);
    InitialBalanced(reqs, hasL2, cfg);
    RunInv(Initial(reqs, hasL2, cfg), l2, events);
    RunBalanced(Initial(reqs, hasL2, cfg), l2, events);
    FinishedAccounting(Run(Initial(reqs, hasL2, cfg), l2, events));
  }

  // When all threads are finished, none has a share left.
  lemma FinishedAccounting(r: Replica)
    requires Inv(r) && Balanced(r) && Finished(r)
    ensures var n := r.counters;
            && n.hits + n.misses == |r.reqs|
            && n.originFetches + n.circuitRejects + n.l2Hits + r.reg.coalesced == n.misses + n.staleServed
            && n.staleServed <= n.hits
            && n.originErrors <= n.originFetches
            && r.breaker.mode != HalfOpen
  {
    forall i | 0 <= i < |r.reqs| ensures Counted(r.pcs[..|r.reqs|][i]) == 1 {
      assert ThreadOk(r, i);
    }
    SumConstant(r.pcs[..|r.reqs|], Counted, 1);
    SumConstant(r.pcs, Owed, 0);
    SumConstant(r.pcs, Probing, 0);
  }

  // While requests are still running the laws hold as inequalities.
  lemma RunningAccounting(reqs: seq<Request>, hasL2: bool, cfg: Config, l2: L2, events: seq<Event>)
    ensures var r := Run(Initial(reqs, hasL2, cfg), l2, events);
            var n := r.counters;
            && n.originFetches + n.circuitRejects + n.l2Hits + r.reg.coalesced <= n.misses + n.staleServed
            && n.staleServed <= n.hits
            && n.originErrors <= n.originFetches
  {
    InitialInv(reqs, hasL2, cfg);
    InitialBalanced(reqs, hasL2, cfg);
    RunBalanced(Initial(reqs, hasL2, cfg), l2, events);
  }
}
