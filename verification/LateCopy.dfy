// A coalesced request stores what its leader found in L2 with a new, full lifetime. So that copy, unlike the promoted
// object itself, can be used long after the object's lifetime is over. The run below has one promotion and one such
// copy, and shows the copy fresh when the object's window has passed.
module LateCopy {
  import opened Wrappers
  import opened CacheEntries
  import opened CircuitBreakers
  import opened InFlight
  import opened L2Freshness
  import opened RequestMachine

  // An object with a lifetime of ten seconds, read back when nine of them have passed. Both clocks show the time
  // since its stamp.
  const OBJECT: Stored<Response> := Stored(Response(200, Content(7), Plain), 10, 0, 0)
  const NINE: int := 9 * NS_PER_SECOND
  const CHOICE: Choice := Choice(NINE, 9000, true, {}, Decision(true, 60, 0), Answer(true, 200, 8))

  const PROMOTED: Entry := CacheEntry(OBJECT.payload, NINE, 1, 0)
  const SERVED: Response := OBJECT.payload.(tag := L2HitTag)
  const COPY: Entry := CacheEntry(SERVED, NINE, 60, 0)
  const ROLE: Role := Leading(0, None, NINE)

  function Two(k: Key): Replica {
    Initial([Request(true, k), Request(true, k)], true, Config(5, 5000, 1))
  }

  function Tier(k: Key): L2 {
    map[k := OBJECT]
  }

  lemma ReadBack(k: Key, r: Replica)
    requires r.clock <= NINE
    ensures ReadTier2(r, Tier(k), k, CHOICE) == Some(PROMOTED)
  {
    assert Now(r, CHOICE) == NINE;
    assert L2Freshness.ElapsedMs(OBJECT, 9000) == 9000;
  }

  // The leader's way, and the way of the request that joins it.
  function Leader(n: nat): Pc {
    if n == 0 then Start
    else if n == 1 then Lookup(NINE)
    else if n == 2 then CountMiss(None, NINE)
    else if n == 3 then Acquire(None, NINE)
    else if n == 4 then ReadL2(ROLE)
    else if n == 5 then CountL2Hit(ROLE, PROMOTED)
    else if n == 6 then Promote(ROLE, PROMOTED)
    else if n == 7 then Erase(ROLE, SERVED, true)
    else if n == 8 then MakeReady(0, SERVED, true)
    else Done(SERVED, Published(0, true))
  }

  function Joiner(n: nat): Pc {
    if n == 0 then Start
    else if n == 1 then Lookup(NINE)
    else if n == 2 then CountMiss(None, NINE)
    else if n == 3 then Acquire(None, NINE)
    else if n == 4 then Wait(0)
    else if n == 5 then ReadResponse(0)
    else if n == 6 then ReadFlag(0, SERVED)
    else if n == 7 then PutShared(0, SERVED, COPY)
    else Done(SERVED.(tag := CoalescedTag), Joined(0))
  }

  // Where the two are: the leader moves four times, the joiner four, the leader five more, the joiner four more.
  ghost predicate Stage(r: Replica, k: Key, a: nat, b: nat) {
    && Shaped(r) && r.reqs == Two(k).reqs && r.hasL2 && r.clock <= NINE && (a > 0 ==> r.clock == NINE)
    && r.counters.originFetches == 0
    && r.pcs == [Leader(a), Joiner(b), Idle, Idle]
    && (a <= 6 ==> k !in r.l1)
    && (a <= 3 ==> r.reg.inflight == map[] && r.reg.slots == [])
    && (4 <= a <= 7 ==> r.reg.inflight == map[k := 0])
    && (a >= 4 ==> |r.reg.slots| == 1)
    && (a == 9 ==> r.reg.slots[0].ready && r.reg.slots[0].success && r.reg.slots[0].response == SERVED)
    && (b == 8 ==> k in r.l1 && r.l1[k] == COPY)
  }

  function Go(r: Replica, k: Key, t: nat): Replica
    requires Shaped(r)
  {
    Apply(r, Tier(k), Act(t, CHOICE))
  }

  lemma LeaderMoves(r: Replica, k: Key, a: nat, b: nat)
    requires Stage(r, k, a, b) && a < 9 && b <= 4 && (a <= 3 ==> b == 0)
    ensures Stage(Go(r, k, 0), k, a + 1, b) && ApplyL2(r, Tier(k), Act(0, CHOICE)) == Tier(k)
  {
    assert KeyOf(r, 0) == k && Enabled(r, 0);
    LeaderNext(r, k, a, b);
    LeaderShared(r, k, a, b);
    assert !Spawns(r, 0);
    assert PcsAfter(r, Tier(k), 0, CHOICE) == [Leader(a + 1), Joiner(b), Idle, Idle];
  }

  lemma LeaderNext(r: Replica, k: Key, a: nat, b: nat)
    requires Stage(r, k, a, b) && a < 9
    ensures Enabled(r, 0) && NextPc(r, Tier(k), 0, CHOICE) == Leader(a + 1)
  {
    assert KeyOf(r, 0) == k;
    ReadBack(k, r);
    if a <= 3 {
      assert NextPc(r, Tier(k), 0, CHOICE) == ServeNext(r, 0, CHOICE);
    } else if a <= 7 {
      assert NextPc(r, Tier(k), 0, CHOICE) == FetchNext(r, Tier(k), 0, CHOICE);
    }
  }

  lemma LeaderShared(r: Replica, k: Key, a: nat, b: nat)
    requires Stage(r, k, a, b) && a < 9 && Enabled(r, 0)
    ensures var reg := RegAfter(r, 0);
            && (a + 1 <= 3 ==> reg == r.reg)
            && (4 <= a + 1 <= 7 ==> reg.inflight == map[k := 0])
            && (a + 1 >= 4 ==> |reg.slots| == 1)
            && (a + 1 == 9 ==> reg.slots[0].ready && reg.slots[0].success && reg.slots[0].response == SERVED)
    ensures a <= 5 ==> L1After(r, 0, CHOICE) == r.l1
  {
    assert KeyOf(r, 0) == k;
  }

  lemma JoinerMoves(r: Replica, k: Key, a: nat, b: nat)
    requires Stage(r, k, a, b) && b < 8 && (b <= 3 ==> a == 4) && (b >= 4 ==> a == 9)
    ensures Stage(Go(r, k, 1), k, a, b + 1) && ApplyL2(r, Tier(k), Act(1, CHOICE)) == Tier(k)
  {
    assert KeyOf(r, 1) == k && Enabled(r, 1);
    JoinerNext(r, k, a, b);
    JoinerShared(r, k, a, b);
    assert !Spawns(r, 1);
    assert PcsAfter(r, Tier(k), 1, CHOICE) == [Leader(a), Joiner(b + 1), Idle, Idle];
  }

  lemma JoinerShared(r: Replica, k: Key, a: nat, b: nat)
    requires Stage(r, k, a, b) && b < 8 && (b <= 3 ==> a == 4) && (b >= 4 ==> a == 9) && Enabled(r, 1)
    ensures RegAfter(r, 1).inflight == r.reg.inflight && RegAfter(r, 1).slots == r.reg.slots
    ensures b < 7 ==> L1After(r, 1, CHOICE) == r.l1
    ensures b == 7 ==> k in L1After(r, 1, CHOICE) && L1After(r, 1, CHOICE)[k] == COPY
  {
    assert KeyOf(r, 1) == k;
  }

  lemma JoinerNext(r: Replica, k: Key, a: nat, b: nat)
    requires Stage(r, k, a, b) && b < 8 && (b <= 3 ==> a == 4) && (b >= 4 ==> a == 9)
    ensures Enabled(r, 1) && NextPc(r, Tier(k), 1, CHOICE) == Joiner(b + 1)
  {
    assert KeyOf(r, 1) == k;
    if b <= 3 {
      assert NextPc(r, Tier(k), 1, CHOICE) == ServeNext(r, 1, CHOICE);
    } else {
      assert NextPc(r, Tier(k), 1, CHOICE) == SlotNext(r, 1, CHOICE);
    }
  }

  // Nothing but steps of threads, at which both clocks show that nine seconds have passed since the stamp.
  ghost predicate OnlySteps(events: seq<Event>) {
    forall i :: 0 <= i < |events| ==>
      && events[i].Act? && events[i].choice.now == NINE && events[i].choice.wallMs == NINE / NS_PER_MS
      && events[i].choice == CHOICE
  }

  // A run of steps that leave L2 alone.
  ghost predicate Leads(r: Replica, k: Key, events: seq<Event>, r': Replica)
    requires Shaped(r)
  {
    Run(r, Tier(k), events) == r' && OnlySteps(events)
  }

  lemma LeadsFirst(r: Replica, k: Key, t: nat, events: seq<Event>, r': Replica)
    requires Shaped(r) && ApplyL2(r, Tier(k), Act(t, CHOICE)) == Tier(k) && Leads(Go(r, k, t), k, events, r')
    ensures Leads(r, k, [Act(t, CHOICE)] + events, r')
  {
    assert ([Act(t, CHOICE)] + events)[1..] == events;
  }

  // Whose turn it is.
  function Turn(a: nat, b: nat): nat {
    if a < 4 then 0 else if b < 4 then 1 else if a < 9 then 0 else 1
  }

  lemma {:induction false} ToTheEnd(r: Replica, k: Key, a: nat, b: nat) returns (events: seq<Event>, r': Replica)
    requires Stage(r, k, a, b) && a <= 9 && b <= 8 && (a <= 3 ==> b == 0) && (b >= 5 ==> a == 9) && (a > 4 ==> b >= 4)
    ensures Leads(r, k, events, r') && Stage(r', k, 9, 8)
    decreases 17 - a - b
  {
    if a == 9 && b == 8 {
      events, r' := [], r;
    } else {
      var rest;
      if Turn(a, b) == 0 {
        LeaderMoves(r, k, a, b);
        rest, r' := ToTheEnd(Go(r, k, 0), k, a + 1, b);
      } else {
        JoinerMoves(r, k, a, b);
        rest, r' := ToTheEnd(Go(r, k, 1), k, a, b + 1);
      }
      LeadsFirst(r, k, Turn(a, b), rest, r');
      events := [Act(Turn(a, b), CHOICE)] + rest;
    }
  }

  // In L1 there is, in the end, a copy of the object that is fresh when all its lifetime and a second more, and
  // then another 48 seconds, have passed since its stamp.
  lemma CoalescedCopyOutlivesTheWindow(k: Key) returns (events: seq<Event>)
    ensures OnlySteps(events)
    ensures var r := Run(Two(k), Tier(k), events);
            var at := 59 * NS_PER_SECOND;
            && Finished(r) && r.clock == NINE && r.counters.originFetches == 0
            && k in r.l1 && r.l1[k].payload == OBJECT.payload.(tag := L2HitTag) && IsFresh(r.l1[k], at)
            && SinceStamp(OBJECT, NINE, NINE, at) >= (OBJECT.ttlSeconds + 1) * NS_PER_SECOND
  {
    var r;
    events, r := ToTheEnd(Two(k), k, 0, 0);
    assert IsFresh(COPY, 59 * NS_PER_SECOND);
  }
}
