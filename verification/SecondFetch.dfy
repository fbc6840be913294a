// Two concurrent misses of one key can cost two origin fetches: a thread may look into L1 before another thread's
// fetch and acquire its slot after that fetch has been published. So coalescing to exactly one fetch, as section
// 3 of docs/DESIGN_DECISIONS.md has it, is not an invariant; what is one is in SingleFlight and Accounting.
module SecondFetch {
  import opened Wrappers
  import opened CacheEntries
  import opened CircuitBreakers
  import opened InFlight
  import opened RequestMachine

  const ANY: Choice := Choice(0, 0, true, {}, Decision(true, 60, 0), Answer(true, 200, 7))
  const GOT: Response := Response(200, Content(7), Plain)
  const KEPT: Entry := CacheEntry(GOT, 0, 60, 0)

  function Start2(k: Key): Replica {
    Initial([Request(true, k), Request(true, k)], false, Config(5, 5000, 1))
  }

  // A thread on its way through a miss, from its start to its end, when it leads with the given slot.
  const LENGTH: nat := 13

  function Way(slot: nat, n: nat): Pc {
    var role := Leading(slot, None, 0);
    if n == 0 then Start
    else if n == 1 then Lookup(0)
    else if n == 2 then CountMiss(None, 0)
    else if n == 3 then Acquire(None, 0)
    else if n == 4 then AskBreaker(role)
    else if n == 5 then Fetch(role)
    else if n == 6 then Observe(role, Some(GOT))
    else if n == 7 then TellBreaker(role, Some(GOT))
    else if n == 8 then Decide(role, GOT)
    else if n == 9 then PutL1(role, GOT, KEPT)
    else if n == 10 then PutL2(role, GOT, KEPT)
    else if n == 11 then Erase(role, GOT.(tag := MissTag), true)
    else if n == 12 then MakeReady(slot, GOT.(tag := MissTag), true)
    else Done(GOT.(tag := MissTag), Published(slot, true))
  }

  // Thread t is at place n of its way; the registry and L1 allow it to go on.
  ghost predicate At(r: Replica, k: Key, t: nat, slot: nat, n: nat) {
    && Shaped(r) && |r.reqs| == 2 && t < 2 && r.reqs[t] == Request(true, k)
    && r.pcs[t] == Way(slot, n) && !r.hasL2 && r.clock == 0 && r.breaker == INITIAL
    && |r.reg.slots| == (if n <= 3 then slot else slot + 1)
    && (if 4 <= n <= 11 then k in r.reg.inflight && r.reg.inflight[k] == slot else k !in r.reg.inflight)
    && (n <= 1 ==> k !in r.l1)
    && (n >= 10 ==> k in r.l1 && r.l1[k] == KEPT)
  }

  lemma NextOnWay(r: Replica, k: Key, t: nat, slot: nat, n: nat)
    requires At(r, k, t, slot, n) && n < LENGTH
    ensures Enabled(r, t) && NextPc(r, map[], t, ANY) == Way(slot, n + 1)
  {
    assert KeyOf(r, t) == k;
    if n <= 3 {
      assert NextPc(r, map[], t, ANY) == ServeNext(r, t, ANY);
    } else if n <= 11 {
      assert NextPc(r, map[], t, ANY) == FetchNext(r, map[], t, ANY);
    }
  }

  function Go(r: Replica, t: nat): Replica
    requires Shaped(r)
  {
    Apply(r, map[], Act(t, ANY))
  }

  // What the step does to the registry and to L1.
  lemma SharedOnWay(r: Replica, k: Key, t: nat, slot: nat, n: nat)
    requires At(r, k, t, slot, n) && n < LENGTH && Enabled(r, t)
    ensures var reg := RegAfter(r, t);
            && |reg.slots| == (if n + 1 <= 3 then slot else slot + 1)
            && (if 4 <= n + 1 <= 11 then k in reg.inflight && reg.inflight[k] == slot else k !in reg.inflight)
            && reg.coalesced == r.reg.coalesced
    ensures n + 1 <= 9 ==> L1After(r, t, ANY) == r.l1
    ensures n + 1 >= 10 ==> k in L1After(r, t, ANY) && L1After(r, t, ANY)[k] == KEPT
    ensures BreakerAfter(r, t, ANY) == INITIAL
  {
    assert KeyOf(r, t) == k;
  }

  lemma CountersOnWay(r: Replica, k: Key, t: nat, slot: nat, n: nat)
    requires At(r, k, t, slot, n) && n < LENGTH
    ensures var c := CountersAfter(r, t);
            && c.originFetches == r.counters.originFetches + (if n == 6 then 1 else 0)
            && c.misses == r.counters.misses + (if n == 2 then 1 else 0) && c.hits == r.counters.hits
  {
  }

  ghost predicate OthersStay(r: Replica, r': Replica, t: nat) {
    && r'.reqs == r.reqs && |r'.pcs| == |r.pcs| && r'.reg.coalesced == r.reg.coalesced
    && forall j :: 0 <= j < |r.pcs| && j != t ==> r'.pcs[j] == r.pcs[j]
  }

  // One step of the thread: it gets one place further, and nobody else moves.
  lemma OneStep(r: Replica, k: Key, t: nat, slot: nat, n: nat)
    requires At(r, k, t, slot, n) && n < LENGTH
    ensures At(Go(r, t), k, t, slot, n + 1) && OthersStay(r, Go(r, t), t)
    ensures Go(r, t).counters == CountersAfter(r, t) && (n + 1 <= 9 ==> Go(r, t).l1 == r.l1)
  {
    NextOnWay(r, k, t, slot, n);
    SharedOnWay(r, k, t, slot, n);
    assert !Spawns(r, t);
    assert Go(r, t) == Step(r, map[], t, ANY);
  }

  lemma StepWalked(r: Replica, k: Key, t: nat, slot: nat, n: nat)
    requires At(r, k, t, slot, n) && n < LENGTH
    ensures Walked(r, Go(r, t), k, t, slot, n, n + 1)
  {
    OneStep(r, k, t, slot, n);
    CountersOnWay(r, k, t, slot, n);
  }

  // From place n to place m: the thread alone has moved, and has counted its miss and its fetch on the way.
  ghost predicate Walked(r: Replica, r': Replica, k: Key, t: nat, slot: nat, n: nat, m: nat) {
    && At(r', k, t, slot, m) && OthersStay(r, r', t) && (m <= 9 ==> r'.l1 == r.l1)
    && r'.counters.originFetches == r.counters.originFetches + (if n <= 6 < m then 1 else 0)
    && r'.counters.misses == r.counters.misses + (if n <= 2 < m then 1 else 0)
    && r'.counters.hits == r.counters.hits
  }

  lemma WalkOn(r: Replica, r1: Replica, r2: Replica, k: Key, t: nat, slot: nat, n: nat, m: nat)
    requires n < m && Walked(r, r1, k, t, slot, n, n + 1) && Walked(r1, r2, k, t, slot, n + 1, m)
    ensures Walked(r, r2, k, t, slot, n, m)
  {
  }

  // Nothing but steps of threads: no key leaves L1 on its own, nothing is evicted, the clock stands still, the origin
  // answers and every answer is to be stored.
  ghost predicate OnlySteps(events: seq<Event>) {
    forall i :: 0 <= i < |events| ==> events[i].Act? && events[i].choice == ANY
  }

  // A run of thread steps, without an L2 tier.
  ghost predicate Leads(r: Replica, events: seq<Event>, r': Replica)
    requires Shaped(r)
  {
    !r.hasL2 && !r'.hasL2 && Run(r, map[], events) == r' && OnlySteps(events)
  }

  lemma LeadsFirst(r: Replica, t: nat, events: seq<Event>, r': Replica)
    requires Shaped(r) && !r.hasL2 && Leads(Go(r, t), events, r')
    ensures Leads(r, [Act(t, ANY)] + events, r')
  {
    assert ([Act(t, ANY)] + events)[1..] == events;
  }

  lemma {:induction false} LeadsThen(r: Replica, a: seq<Event>, r1: Replica, b: seq<Event>, r2: Replica)
    requires Shaped(r) && Leads(r, a, r1) && Leads(r1, b, r2)
    ensures Leads(r, a + b, r2)
    decreases |a|
  {
    if a == [] {
      assert a + b == b;
    } else {
      assert (a + b)[0] == a[0] && (a + b)[1..] == a[1..] + b;
      LeadsThen(Apply(r, map[], a[0]), a[1..], r1, b, r2);
    }
  }

  lemma {:induction false} Steps(r: Replica, k: Key, t: nat, slot: nat, n: nat, m: nat)
    returns (events: seq<Event>, r': Replica)
    requires At(r, k, t, slot, n) && n <= m <= LENGTH
    ensures Leads(r, events, r') && Walked(r, r', k, t, slot, n, m)
    ensures |events| == m - n && forall i :: 0 <= i < |events| ==> events[i] == Act(t, ANY)
    decreases m - n
  {
    if n == m {
      events, r' := [], r;
    } else {
      StepWalked(r, k, t, slot, n);
      var rest;
      rest, r' := Steps(Go(r, t), k, t, slot, n + 1, m);
      LeadsFirst(r, t, rest, r');
      WalkOn(r, Go(r, t), r', k, t, slot, n, m);
      events := [Act(t, ANY)] + rest;
    }
  }

  lemma HandOver(r: Replica, r': Replica, k: Key)
    requires |r.pcs| == 4 && r.pcs[1] == Way(1, 2)
    requires Walked(r, r', k, 0, 0, 0, LENGTH) && |r.reqs| == 2 && r.reqs[1] == Request(true, k)
    ensures At(r', k, 1, 1, 2)
  {
  }

  lemma FirstLook(r0: Replica, r1: Replica, k: Key)
    requires r0 == Start2(k) && Walked(r0, r1, k, 1, 0, 0, 2)
    ensures At(r1, k, 0, 0, 0) && |r1.reqs| == 2 && r1.reqs[1] == Request(true, k)
    ensures r1.pcs == [Start, Way(1, 2), Idle, Idle]
  {
  }

  lemma BothDone(r0: Replica, r1: Replica, r2: Replica, r3: Replica, k: Key)
    requires r0 == Start2(k) && r1.pcs == [Start, Way(1, 2), Idle, Idle]
    requires Walked(r0, r1, k, 1, 0, 0, 2)
    requires Walked(r1, r2, k, 0, 0, 0, LENGTH) && Walked(r2, r3, k, 1, 1, 2, LENGTH)
    ensures Finished(r3)
    ensures r3.counters.misses == 2 && r3.counters.originFetches == 2 && r3.reg.coalesced == 0
  {
  }

  // Two requests for the same key, both of them misses, and two origin fetches: thread 1 looks into L1, thread 0
  // serves its request from beginning to end, thread 1 goes on. The requests overlap, nothing fails and nothing is
  // evicted.
  lemma TwoMissesTwoFetches(k: Key) returns (events: seq<Event>)
    ensures OnlySteps(events)
    ensures |events| > 0 && events[0] == Act(1, ANY) && Act(0, ANY) in events && events[|events| - 1] == Act(1, ANY)
    ensures var r := Run(Start2(k), map[], events);
            && Finished(r)
            && r.counters.misses == 2 && r.counters.originFetches == 2 && r.reg.coalesced == 0
  {
    var r0 := Start2(k);
    var look, r1 := Steps(r0, k, 1, 0, 0, 2);
    FirstLook(r0, r1, k);
    var serve, r2 := Steps(r1, k, 0, 0, 0, LENGTH);
    HandOver(r1, r2, k);
    var again, r3 := Steps(r2, k, 1, 1, 2, LENGTH);
    BothDone(r0, r1, r2, r3, k);
    LeadsThen(r0, look, r1, serve, r2);
    LeadsThen(r0, look + serve, r2, again, r3);
    events := look + serve + again;
    assert events[0] == look[0] && events[2] == serve[0] && events[|events| - 1] == again[|again| - 1];
  }

  // ---------------------------------------------------------------------------------------------
  // The same two requests one after the other.

  lemma Begins(r: Replica, k: Key)
    requires Shaped(r) && |r.reqs| == 2 && r.reqs[1] == Request(true, k) && r.pcs[1] == Start && r.clock == 0
    ensures Go(r, 1) == r.(pcs := r.pcs[1 := Lookup(0)])
  {
    assert Go(r, 1) == Step(r, map[], 1, ANY);
  }

  lemma Finds(r: Replica, k: Key)
    requires Shaped(r) && |r.reqs| == 2 && r.reqs[1] == Request(true, k) && r.pcs[1] == Lookup(0) && r.clock == 0
    requires k in r.l1 && r.l1[k] == KEPT
    ensures Go(r, 1) == r.(pcs := r.pcs[1 := CountHit(GOT.(tag := HitTag))])
  {
    assert IsFresh(KEPT, 0);
    assert Go(r, 1) == Step(r, map[], 1, ANY);
  }

  lemma Answers(r: Replica)
    requires Shaped(r) && |r.reqs| == 2 && r.pcs[1] == CountHit(GOT.(tag := HitTag)) && r.clock == 0
    ensures Go(r, 1) == r.(pcs := r.pcs[1 := Done(GOT.(tag := HitTag), FromHit)],
                           counters := r.counters.(hits := r.counters.hits + 1))
  {
    assert Go(r, 1) == Step(r, map[], 1, ANY);
  }

  // From the lookup on,
  lemma HitFrom(r: Replica, k: Key) returns (events: seq<Event>, r': Replica)
    requires Shaped(r) && |r.reqs| == 2 && r.reqs[1] == Request(true, k) && r.pcs[1] == Lookup(0)
    requires !r.hasL2 && r.clock == 0 && k in r.l1 && r.l1[k] == KEPT
    ensures Leads(r, events, r') && OthersStay(r, r', 1)
    ensures r'.pcs[1] == Done(GOT.(tag := HitTag), FromHit)
    ensures r'.counters == r.counters.(hits := r.counters.hits + 1)
  {
    var r1 := Go(r, 1);
    Finds(r, k);
    r' := Go(r1, 1);
    Answers(r1);
    var last := [Act(1, ANY)] + [];
    LeadsFirst(r1, 1, [], r');
    LeadsFirst(r, 1, last, r');
    events := [Act(1, ANY)] + last;
  }

  // and from the start.
  lemma HitSteps(r: Replica, k: Key) returns (events: seq<Event>, r': Replica)
    requires Shaped(r) && |r.reqs| == 2 && r.reqs[1] == Request(true, k) && r.pcs[1] == Start
    requires !r.hasL2 && r.clock == 0 && k in r.l1 && r.l1[k] == KEPT
    ensures Leads(r, events, r') && OthersStay(r, r', 1)
    ensures r'.pcs[1] == Done(GOT.(tag := HitTag), FromHit)
    ensures r'.counters == r.counters.(hits := r.counters.hits + 1)
  {
    Begins(r, k);
    var rest;
    rest, r' := HitFrom(Go(r, 1), k);
    LeadsFirst(r, 1, rest, r');
    events := [Act(1, ANY)] + rest;
  }

  // A miss, and then a hit on what the miss has stored: one origin fetch for both.
  lemma MissThenHit(k: Key) returns (events: seq<Event>)
    ensures OnlySteps(events)
    ensures var r := Run(Start2(k), map[], events);
            && Finished(r)
            && r.pcs[0] == Done(GOT.(tag := MissTag), Published(0, true))
            && r.pcs[1] == Done(GOT.(tag := HitTag), FromHit)
            && r.counters.originFetches == 1 && r.counters.misses == 1 && r.counters.hits == 1
  {
    var r0 := Start2(k);
    var serve, r1 := Steps(r0, k, 0, 0, 0, LENGTH);
    var again, r2 := HitSteps(r1, k);
    LeadsThen(r0, serve, r1, again, r2);
    events := serve + again;
  }
}
