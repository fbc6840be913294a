// Progress: no reachable state is stuck, and no run goes on for ever, so every request is answered.
module Progress {
  import opened CircuitBreakers
  import opened RequestMachine
  import opened SingleFlight
  import opened Accounting

  // The accesses a thread still has before it, along its longest path; a stale hit also answers for the
  // revalidation it may start.
  function Rank(pc: Pc): nat {
    match pc
    case Start => 15
    case Lookup(_) => 14
    case CountHit(_) => 1
    case CountStaleHit(_) => 12
    case CountStale(_) => 11
    case Trigger(_) => 10
    case CountMiss(_, _) => 13
    case Acquire(_, _) => 12
    case ReadL2(_) => 11
    case CountL2Hit(_, _) => 4
    case Promote(_, _) => 3
    case CountL2Miss(_) => 10
    case AskBreaker(_) => 9
    case CountReject(_) => 4
    case Fetch(_) => 8
    case Observe(_, _) => 7
    case TellBreaker(_, _) => 6
    case CountError(_) => 4
    case Decide(_, _) => 5
    case PutL1(_, _, _) => 4
    case PutL2(_, _, _) => 3
    case Fail(_, _) => 3
    case Erase(_, _, _) => 2
    case MakeReady(_, _, _) => 1
    case Wait(_) => 4
    case ReadResponse(_) => 3
    case ReadFlag(_, _) => 2
    case PutShared(_, _, _) => 1
    case Idle => 0
    case Done(_, _) => 0
  }

  function Remaining(r: Replica): nat {
    Sum(r.pcs, Rank)
  }

  lemma FetchRanks(r: Replica, l2: L2, i: nat, c: Choice)
    requires Shaped(r) && i < |r.pcs| && RoleOf(r.pcs[i]).Some?
    ensures Rank(FetchNext(r, l2, i, c)) < Rank(r.pcs[i])
  {
  }

  lemma SlotRanks(r: Replica, i: nat, c: Choice)
    requires Shaped(r) && i < |r.pcs| && Enabled(r, i) && OnSlot(r.pcs[i])
    ensures Rank(SlotNext(r, i, c)) < Rank(r.pcs[i])
  {
  }

  lemma ServeRanks(r: Replica, i: nat, c: Choice)
    requires Shaped(r) && i < |r.pcs| && Enabled(r, i) && RoleOf(r.pcs[i]).None? && !OnSlot(r.pcs[i])
    ensures Rank(ServeNext(r, i, c)) + (if Spawns(r, i) then 9 else 0) < Rank(r.pcs[i])
  {
  }

  lemma StepRanks(r: Replica, l2: L2, i: nat, c: Choice)
    requires Shaped(r) && i < |r.pcs| && Enabled(r, i)
    ensures Rank(NextPc(r, l2, i, c)) + (if Spawns(r, i) then 9 else 0) < Rank(r.pcs[i])
  {
    if RoleOf(r.pcs[i]).Some? {
      FetchRanks(r, l2, i, c);
    } else if OnSlot(r.pcs[i]) {
      SlotRanks(r, i, c);
    } else {
      ServeRanks(r, i, c);
    }
  }

  lemma StepDescends(r: Replica, l2: L2, i: nat, c: Choice)
    requires Inv(r) && i < |r.pcs| && Enabled(r, i)
    ensures Remaining(Step(r, l2, i, c)) < Remaining(r)
  {
    assert ThreadOk(r, i);
    StepRanks(r, l2, i, c);
    SumAfter(r, l2, i, c, Rank);
  }

  // The events of a run at which a thread really moves.
  function Moves(r: Replica, l2: L2, events: seq<Event>): nat
    requires Shaped(r)
    decreases |events|
  {
    if events == [] then 0
    else
      var e := events[0];
      (if e.Act? && e.thread < |r.pcs| && Enabled(r, e.thread) then 1 else 0)
      + Moves(Apply(r, l2, e), ApplyL2(r, l2, e), events[1..])
  }

  lemma {:induction false} MovesWithin(r: Replica, l2: L2, events: seq<Event>)
    requires Inv(r)
    ensures Moves(r, l2, events) + Remaining(Run(r, l2, events)) <= Remaining(r)
    decreases |events|
  {
    if events != [] {
      var e := events[0];
      if e.Act? && e.thread < |r.pcs| && Enabled(r, e.thread) {
        StepDescends(r, l2, e.thread, e.choice);
      }
      ApplyInv(r, l2, e);
      MovesWithin(Apply(r, l2, e), ApplyL2(r, l2, e), events[1..]);
    }
  }

  // Whatever the schedule, the clocks, the cache, Redis and the origin do, serving n requests takes at
  // most 15 n accesses, revalidations included.
  lemma RunsAreBounded(reqs: seq<Request>, hasL2: bool, cfg: Config, l2: L2, events: seq<Event>)
    ensures Moves(Initial(reqs, hasL2, cfg), l2, events) <= 15 * |reqs|
  {
    var r := Initial(reqs, hasL2, cfg);
    InitialInv(reqs, hasL2, cfg);
    MovesWithin(r, l2, events);
    SumSplit(r.pcs[..|reqs|], r.pcs[|reqs|..], Rank);
    assert r.pcs == r.pcs[..|reqs|] + r.pcs[|reqs|..];
    SumConstant(r.pcs[..|reqs|], Rank, 15);
    SumConstant(r.pcs[|reqs|..], Rank, 0);
  }

  lemma {:induction false} SumSplit(a: seq<Pc>, b: seq<Pc>, weight: Pc -> nat)
    ensures Sum(a + b, weight) == Sum(a, weight) + Sum(b, weight)
  {
    if a == [] {
      assert a + b == b;
    } else {
      assert (a + b)[1..] == a[1..] + b;
      SumSplit(a[1..], b, weight);
    }
  }

  // A thread that cannot move waits for a slot, and the thread that will make that slot ready can move.
  lemma NotStuck(r: Replica) returns (i: nat)
    requires Reachable(r) && !Finished(r)
    ensures i < |r.pcs| && Enabled(r, i)
  {
    ReachableInv(r);
    i :| 0 <= i < |r.pcs| && !(r.pcs[i].Done? || r.pcs[i].Idle?);
    assert ThreadOk(r, i);
    if !Enabled(r, i) {
      var slot := r.pcs[i].slot;
      assert SlotOk(r, slot);
      i := r.reg.slots[slot].leader;
      assert ThreadOk(r, i);
    }
  }

  // So a run that can go no further has answered every request.
  lemma EveryRequestIsAnswered(r: Replica)
    requires Reachable(r)
    requires forall i: nat :: i < |r.pcs| ==> !Enabled(r, i)
    ensures forall i: nat :: i < |r.reqs| ==> i < |r.pcs| && r.pcs[i].Done?
  {
    if !Finished(r) {
      var i := NotStuck(r);
    }
    ReachableInv(r);
    forall i: nat | i < |r.reqs| ensures i < |r.pcs| && r.pcs[i].Done? {
      assert ThreadOk(r, i);
    }
  }
}
