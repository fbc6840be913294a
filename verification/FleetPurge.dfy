// Purging a pattern across the fleet: the shared L2 first, then every replica's L1.
module FleetPurge {
  // The fleet is any number of replicas, each a RequestMachine replica, one L2 tier, and an origin whose content for a
  // key changes from version to version. That the condition under which the purge works is exact is in PurgeExactness.

  import opened Wrappers
  import opened CacheEntries
  import opened CircuitBreakers
  import opened InFlight
  import opened L2Freshness
  import opened RequestMachine
  import opened SingleFlight
  import Patterns

  type Versions = map<Key, nat>

  datatype Fleet = Fleet(replicas: seq<Replica>, l2: L2, origin: Versions)

  // A thread of a replica moves, the origin publishes new content for a key, keys leave an L1 or the L2
  // on their own, or one of the two purge steps of a pattern is carried out.
  datatype FleetEvent =
    | Move(replica: nat, thread: nat, choice: Choice)
    | Publish(key: Key)
    | Forget(replica: nat, keys: set<Key>)
    | Lapse(keys: set<Key>)
    | PurgeL2(pattern: string)
    | PurgeL1(replica: nat, pattern: string)

  function VersionOf(v: Versions, k: Key): nat {
    if k in v then v[k] else 0
  }

  // An origin fetch answers with the version the origin has now.
  function Current(f: Fleet, r: Replica, i: nat, c: Choice): Choice
    requires Shaped(r) && i < |r.pcs|
  {
    c.(answer := c.answer.(version := VersionOf(f.origin, KeyOf(r, i))))
  }

  predicate AllShaped(f: Fleet) {
    forall x :: 0 <= x < |f.replicas| ==> Shaped(f.replicas[x])
  }

  function ApplyFleet(f: Fleet, e: FleetEvent): (f': Fleet)
    requires AllShaped(f)
    ensures AllShaped(f') && |f'.replicas| == |f.replicas|
  {
    match e
    case Move(x, i, c) =>
      if x < |f.replicas| && i < |f.replicas[x].pcs| && Enabled(f.replicas[x], i) then
        var r := f.replicas[x];
        var now := Current(f, r, i, c);
        f.(replicas := f.replicas[x := Step(r, f.l2, i, now)], l2 := L2After(r, f.l2, i, now))
      else f
    case Publish(k) => f.(origin := f.origin[k := VersionOf(f.origin, k) + 1])
    case Forget(x, keys) =>
      if x < |f.replicas| then f.(replicas := f.replicas[x := f.replicas[x].(l1 := f.replicas[x].l1 - keys)]) else f
    case Lapse(keys) => f.(l2 := f.l2 - keys)
    case PurgeL2(p) => f.(l2 := map k | k in f.l2 && !Patterns.PurgeMatches(p, k) :: f.l2[k])
    case PurgeL1(x, p) =>
      if x < |f.replicas| then
        var r := f.replicas[x];
        f.(replicas := f.replicas[x := r.(l1 := map k | k in r.l1 && !Patterns.PurgeMatches(p, k) :: r.l1[k])])
      else f
  }

  // The two purge steps remove what the pattern covers from L2, or from the one L1, and change nothing else.
  lemma PurgeStepsAreExact(f: Fleet, x: nat, pattern: string)
    requires AllShaped(f) && x < |f.replicas|
    ensures ApplyFleet(f, PurgeL2(pattern)) == f.(l2 := Patterns.Spared(f.l2, pattern))
    ensures var r := f.replicas[x];
            ApplyFleet(f, PurgeL1(x, pattern))
            == f.(replicas := f.replicas[x := r.(l1 := Patterns.Spared(r.l1, pattern))])
  {
    assert ApplyFleet(f, PurgeL2(pattern)).l2 == Patterns.Spared(f.l2, pattern);
    assert ApplyFleet(f, PurgeL1(x, pattern)).replicas[x].l1 == Patterns.Spared(f.replicas[x].l1, pattern);
  }

  function RunFleet(f: Fleet, events: seq<FleetEvent>): (f': Fleet)
    requires AllShaped(f)
    ensures AllShaped(f') && |f'.replicas| == |f.replicas|
    decreases |events|
  {
    if events == [] then f else RunFleet(ApplyFleet(f, events[0]), events[1..])
  }

  // A failed fetch has no content to hand on.
  predicate FailureLocal(pc: Pc) {
    match pc
    case Erase(_, resp, success) => success || resp.body.Local?
    case MakeReady(_, resp, success) => success || resp.body.Local?
    case _ => true
  }

  ghost predicate FailuresLocal(r: Replica) {
    && (forall i :: 0 <= i < |r.pcs| ==> FailureLocal(r.pcs[i]))
    && forall s :: 0 <= s < |r.reg.slots| && r.reg.slots[s].ready ==>
         r.reg.slots[s].success || r.reg.slots[s].response.body.Local?
  }

  ghost predicate ReplicaOk(r: Replica) {
    Inv(r) && FailuresLocal(r)
  }

  ghost predicate FleetOk(f: Fleet) {
    forall x :: 0 <= x < |f.replicas| ==> ReplicaOk(f.replicas[x])
  }

  lemma InitialOk(reqs: seq<Request>, hasL2: bool, cfg: Config)
    ensures ReplicaOk(Initial(reqs, hasL2, cfg))
  {
    InitialInv(reqs, hasL2, cfg);
  }

  lemma NextFailureLocal(r: Replica, l2: L2, i: nat, c: Choice)
    requires ReplicaOk(r) && i < |r.pcs| && Enabled(r, i)
    ensures FailureLocal(NextPc(r, l2, i, c))
  {
    assert ThreadOk(r, i) && FailureLocal(r.pcs[i]);
    if RoleOf(r.pcs[i]).Some? {
      assert FailureLocal(FetchNext(r, l2, i, c));
    } else if OnSlot(r.pcs[i]) {
      assert FailureLocal(SlotNext(r, i, c));
    } else {
      assert FailureLocal(ServeNext(r, i, c));
    }
  }

  lemma StepOk(r: Replica, l2: L2, i: nat, c: Choice)
    requires ReplicaOk(r) && i < |r.pcs| && Enabled(r, i)
    ensures ReplicaOk(Step(r, l2, i, c))
  {
    StepInv(r, l2, i, c);
    NextFailureLocal(r, l2, i, c);
    assert FailureLocal(r.pcs[i]);
  }

  lemma DropOk(r: Replica, r': Replica, l2: L2, keys: set<Key>)
    requires ReplicaOk(r) && r' == Apply(r, l2, Drop(keys))
    ensures ReplicaOk(r')
  {
    ApplyInv(r, l2, Drop(keys));
  }

  lemma ApplyFleetOk(f: Fleet, e: FleetEvent)
    requires AllShaped(f) && FleetOk(f)
    ensures FleetOk(ApplyFleet(f, e))
  {
    match e
    case Move(x, i, c) =>
      if x < |f.replicas| && i < |f.replicas[x].pcs| && Enabled(f.replicas[x], i) {
        StepOk(f.replicas[x], f.l2, i, Current(f, f.replicas[x], i, c));
      }
    case Forget(x, keys) =>
      if x < |f.replicas| {
        DropOk(f.replicas[x], ApplyFleet(f, e).replicas[x], f.l2, keys);
      }
    case PurgeL1(x, p) =>
      if x < |f.replicas| {
        var r := f.replicas[x];
        var keys := set k | k in r.l1 && Patterns.PurgeMatches(p, k);
        assert r.l1 - keys == (map k | k in r.l1 && !Patterns.PurgeMatches(p, k) :: r.l1[k]);
        DropOk(r, ApplyFleet(f, e).replicas[x], f.l2, keys);
      }
    case _ =>
  }

  // All replicas have just started.
  ghost predicate Fresh(f: Fleet) {
    forall x :: 0 <= x < |f.replicas| ==>
      f.replicas[x] == Initial(f.replicas[x].reqs, f.replicas[x].hasL2, f.replicas[x].cfg)
  }

  // Every fleet that can be reached is in order.
  lemma ReachableFleetOk(f: Fleet, events: seq<FleetEvent>)
    requires Fresh(f)
    ensures AllShaped(f) && FleetOk(RunFleet(f, events))
  {
    forall x | 0 <= x < |f.replicas| ensures ReplicaOk(f.replicas[x]) {
      InitialOk(f.replicas[x].reqs, f.replicas[x].hasL2, f.replicas[x].cfg);
    }
    RunFleetOk(f, events);
  }

  lemma {:induction false} RunFleetOk(f: Fleet, events: seq<FleetEvent>)
    requires AllShaped(f) && FleetOk(f)
    ensures FleetOk(RunFleet(f, events))
    decreases |events|
  {
    if events != [] {
      ApplyFleetOk(f, events[0]);
      RunFleetOk(ApplyFleet(f, events[0]), events[1..]);
    }
  }

  // ---------------------------------------------------------------------------------------------
  // Old copies. `floor` is what the origin had when the L2 purge ran; a response is old for a key if it
  // carries an earlier version of the origin's content.

  predicate Old(resp: Response, k: Key, floor: Versions) {
    resp.body.Content? && resp.body.version < VersionOf(floor, k)
  }

  // No policy ever stores the answer of a failing server, but it is handed on to clients. `errors` says whether such
  // answers count: for what gets into a cache they do not, for what gets served they do.
  predicate Counts(resp: Response, k: Key, floor: Versions, errors: bool) {
    Old(resp, k, floor) && (errors || resp.status < SERVER_ERROR)
  }

  // A thread that is on its way to put an old response into a cache itself.
  predicate Carries(pc: Pc, k: Key, floor: Versions, errors: bool, slots: seq<Slot<Response>>, hasL2: bool) {
    match pc
    case CountL2Hit(_, e) => Old(e.payload, k, floor)
    case Promote(_, e) => Old(e.payload, k, floor)
    case Observe(role, Some(resp)) => !role.Passing? && Counts(resp, k, floor, errors)
    case TellBreaker(role, Some(resp)) => !role.Passing? && Counts(resp, k, floor, errors)
    case Decide(role, resp) => !role.Passing? && Counts(resp, k, floor, errors)
    case PutL1(_, _, e) => Old(e.payload, k, floor)
    case PutL2(_, _, e) => hasL2 && e.ttlSeconds != 0 && Old(e.payload, k, floor)
    case Wait(slot) => HasOld(slots, slot, k, floor, errors)
    case ReadResponse(slot) => HasOld(slots, slot, k, floor, errors)
    case ReadFlag(slot, resp) => slot < |slots| && slots[slot].success && Counts(resp, k, floor, errors)
    case PutShared(_, _, e) => Old(e.payload, k, floor)
    case _ => false
  }

  // The slot hands an old response to those that wait for it, to be stored.
  predicate HasOld(slots: seq<Slot<Response>>, slot: nat, k: Key, floor: Versions, errors: bool) {
    slot < |slots| && slots[slot].ready && slots[slot].success && Counts(slots[slot].response, k, floor, errors)
  }

  // A thread that is on its way to publish an old response.
  predicate Announces(pc: Pc, k: Key, floor: Versions, errors: bool) {
    match pc
    case PutL1(_, resp, _) => Counts(resp, k, floor, errors)
    case PutL2(_, resp, _) => Counts(resp, k, floor, errors)
    case Erase(_, resp, success) => success && Counts(resp, k, floor, errors)
    case MakeReady(_, resp, success) => success && Counts(resp, k, floor, errors)
    case _ => false
  }

  function HeldSlot(pc: Pc): Option<nat> {
    if OwnSlot(pc).Some? then OwnSlot(pc) else Publishing(pc)
  }

  // A request that can still come to wait for the slot in flight for its key.
  predicate MayJoin(pc: Pc, cacheable: bool) {
    (pc.Start? && cacheable) || pc.Lookup? || pc.CountMiss? || pc.Acquire?
  }

  // Thread t gets what thread i publishes, or can.
  predicate Hears(r: Replica, t: nat, i: nat)
    requires Shaped(r) && t < |r.pcs| && i < |r.pcs|
  {
    && KeyOf(r, t) == KeyOf(r, i)
    && ((HeldSlot(r.pcs[i]).Some? && r.pcs[t] == Wait(HeldSlot(r.pcs[i]).value))
        || (OwnSlot(r.pcs[i]).Some? && MayJoin(r.pcs[t], RequestOf(r, t).cacheable)))
  }

  ghost predicate IsHeard(r: Replica, i: nat)
    requires Shaped(r) && i < |r.pcs|
  {
    exists t: nat :: t < |r.pcs| && Hears(r, t, i)
  }

  // The old response that thread i holds can get into a cache.
  ghost predicate Harmful(r: Replica, i: nat, floor: Versions, errors: bool)
    requires Shaped(r) && i < |r.pcs|
  {
    || Carries(r.pcs[i], KeyOf(r, i), floor, errors, r.reg.slots, r.hasL2)
    || (Announces(r.pcs[i], KeyOf(r, i), floor, errors) && IsHeard(r, i))
  }

  predicate Covered(r: Replica, i: nat, pattern: string)
    requires Shaped(r) && i < |r.pcs|
  {
    Patterns.PurgeMatches(pattern, KeyOf(r, i))
  }

  ghost predicate NoHarmIn(r: Replica, pattern: string, floor: Versions, errors: bool)
    requires Shaped(r)
  {
    forall i: nat :: i < |r.pcs| && Covered(r, i, pattern) ==> !Harmful(r, i, floor, errors)
  }

  ghost predicate NoHarm(f: Fleet, pattern: string, floor: Versions, errors: bool)
    requires AllShaped(f)
  {
    forall x :: 0 <= x < |f.replicas| ==> NoHarmIn(f.replicas[x], pattern, floor, errors)
  }

  ghost predicate L1Clean(r: Replica, pattern: string, floor: Versions) {
    forall k :: k in r.l1 && Patterns.PurgeMatches(pattern, k) ==> !Old(r.l1[k].payload, k, floor)
  }

  ghost predicate L2Clean(l2: L2, pattern: string, floor: Versions) {
    forall k :: k in l2 && Patterns.PurgeMatches(pattern, k) ==> !Old(l2[k].payload, k, floor)
  }

  ghost predicate NotBefore(origin: Versions, floor: Versions) {
    forall k: Key :: VersionOf(floor, k) <= VersionOf(origin, k)
  }

  // ---------------------------------------------------------------------------------------------
  // No step makes a thread harmful.

  // The moving thread: what it reads from L2, from the origin or from a slot is not old.
  lemma FetcherCarries(r: Replica, l2: L2, i: nat, c: Choice, pattern: string, floor: Versions, errors: bool)
    requires Shaped(r) && i < |r.pcs| && RoleOf(r.pcs[i]).Some? && Covered(r, i, pattern)
    requires !Carries(r.pcs[i], KeyOf(r, i), floor, errors, r.reg.slots, r.hasL2)
    requires L2Clean(l2, pattern, floor) && VersionOf(floor, KeyOf(r, i)) <= c.answer.version
    ensures !Carries(FetchNext(r, l2, i, c), KeyOf(r, i), floor, errors, RegAfter(r, i).slots, r.hasL2)
  {
  }

  lemma WaiterCarries(r: Replica, i: nat, c: Choice, floor: Versions, errors: bool)
    requires Inv(r) && i < |r.pcs| && Enabled(r, i) && OnSlot(r.pcs[i])
    requires !Carries(r.pcs[i], KeyOf(r, i), floor, errors, r.reg.slots, r.hasL2)
    ensures !Carries(SlotNext(r, i, c), KeyOf(r, i), floor, errors, RegAfter(r, i).slots, r.hasL2)
  {
    assert ThreadOk(r, i);
  }

  lemma ServerCarries(r: Replica, i: nat, c: Choice, floor: Versions, errors: bool)
    requires Inv(r) && i < |r.pcs| && Enabled(r, i) && RoleOf(r.pcs[i]).None? && !OnSlot(r.pcs[i])
    ensures !Carries(ServeNext(r, i, c), KeyOf(r, i), floor, errors, RegAfter(r, i).slots, r.hasL2)
  {
    if r.pcs[i].Acquire? && KeyOf(r, i) in r.reg.inflight {
      assert InFlightOk(r, KeyOf(r, i));
      var s := r.reg.inflight[KeyOf(r, i)];
      assert SlotOk(r, s) && ThreadOk(r, r.reg.slots[s].leader);
    }
  }

  lemma MoverCarries(r: Replica, l2: L2, i: nat, c: Choice, pattern: string, floor: Versions, errors: bool)
    requires Inv(r) && i < |r.pcs| && Enabled(r, i) && Covered(r, i, pattern)
    requires !Carries(r.pcs[i], KeyOf(r, i), floor, errors, r.reg.slots, r.hasL2)
    requires L2Clean(l2, pattern, floor) && VersionOf(floor, KeyOf(r, i)) <= c.answer.version
    ensures !Carries(NextPc(r, l2, i, c), KeyOf(r, i), floor, errors, RegAfter(r, i).slots, r.hasL2)
  {
    if RoleOf(r.pcs[i]).Some? {
      FetcherCarries(r, l2, i, c, pattern, floor, errors);
    } else if OnSlot(r.pcs[i]) {
      WaiterCarries(r, i, c, floor, errors);
    } else {
      ServerCarries(r, i, c, floor, errors);
    }
  }

  // It announces an old response only if it has announced it before, for the same slot.
  lemma FetcherAnnounces(r: Replica, l2: L2, i: nat, c: Choice, floor: Versions, errors: bool)
    requires Inv(r) && i < |r.pcs| && RoleOf(r.pcs[i]).Some?
    requires !Carries(r.pcs[i], KeyOf(r, i), floor, errors, r.reg.slots, r.hasL2)
    ensures var next := FetchNext(r, l2, i, c);
            Announces(next, KeyOf(r, i), floor, errors) ==>
              && Announces(r.pcs[i], KeyOf(r, i), floor, errors) && HeldSlot(next) == HeldSlot(r.pcs[i])
              && (OwnSlot(next).Some? ==> OwnSlot(r.pcs[i]).Some?)
  {
    assert ThreadOk(r, i);
  }

  lemma OthersAnnounceNothing(r: Replica, i: nat, c: Choice, floor: Versions, errors: bool)
    requires Shaped(r) && i < |r.pcs| && Enabled(r, i) && RoleOf(r.pcs[i]).None?
    ensures OnSlot(r.pcs[i]) ==> !Announces(SlotNext(r, i, c), KeyOf(r, i), floor, errors)
    ensures !OnSlot(r.pcs[i]) ==> !Announces(ServeNext(r, i, c), KeyOf(r, i), floor, errors)
  {
  }

  // Nobody comes to hear a thread that could not be heard: a request that starts to wait could join before, and a
  // slot that is being made ready cannot be joined any more.
  lemma OnlyLookupsJoin(r: Replica, l2: L2, t: nat, c: Choice)
    requires Inv(r) && t < |r.pcs| && Enabled(r, t)
    ensures var next := NextPc(r, l2, t, c);
            MayJoin(next, RequestOf(r, t).cacheable) ==> MayJoin(r.pcs[t], RequestOf(r, t).cacheable)
    ensures NextPc(r, l2, t, c).Wait? ==>
              r.pcs[t].Acquire? && KeyOf(r, t) in r.reg.inflight
              && NextPc(r, l2, t, c).slot == r.reg.inflight[KeyOf(r, t)]
  {
  }

  lemma InFlightIsOwned(r: Replica, k: Key, j: nat)
    requires Inv(r) && k in r.reg.inflight && j < |r.pcs| && HeldSlot(r.pcs[j]) == Some(r.reg.inflight[k])
    ensures OwnSlot(r.pcs[j]).Some?
  {
    assert InFlightOk(r, k) && ThreadOk(r, j);
  }

  lemma JoinerCouldJoin(r: Replica, l2: L2, t: nat, c: Choice, j: nat)
    requires Inv(r) && t < |r.pcs| && Enabled(r, t) && j < |r.pcs|
    requires MayJoin(NextPc(r, l2, t, c), RequestOf(r, t).cacheable) || NextPc(r, l2, t, c).Wait?
    requires NextPc(r, l2, t, c).Wait? ==> HeldSlot(r.pcs[j]) == Some(NextPc(r, l2, t, c).slot)
    ensures MayJoin(r.pcs[t], RequestOf(r, t).cacheable)
    ensures NextPc(r, l2, t, c).Wait? ==> OwnSlot(r.pcs[j]).Some?
  {
    OnlyLookupsJoin(r, l2, t, c);
    if NextPc(r, l2, t, c).Wait? {
      InFlightIsOwned(r, KeyOf(r, t), j);
    }
  }

  // pc' is what thread j is at after the step: itself, or the next place of the moving thread with the same slot.
  lemma HeardBefore(r: Replica, l2: L2, i: nat, c: Choice, t: nat, j: nat)
    requires Inv(r) && i < |r.pcs| && Enabled(r, i) && t < |r.pcs| && j < |r.pcs|
    requires var r' := Step(r, l2, i, c);
             && Hears(r', t, j)
             && HeldSlot(r'.pcs[j]) == HeldSlot(r.pcs[j])
             && (OwnSlot(r'.pcs[j]).Some? ==> OwnSlot(r.pcs[j]).Some?)
    ensures Hears(r, t, j)
  {
    var r' := Step(r, l2, i, c);
    assert KeyOf(r', t) == KeyOf(r, t) && KeyOf(r', j) == KeyOf(r, j) && RequestOf(r', t) == RequestOf(r, t);
    if t == i {
      assert r'.pcs[t] == NextPc(r, l2, i, c);
      if t != j {
        JoinerCouldJoin(r, l2, t, c, j);
      }
    } else {
      assert r'.pcs[t] == r.pcs[t];
    }
  }

  // A thread that did not move carries nothing new: a slot it waits for is made ready by a thread it hears.
  lemma BystanderCarries(r: Replica, i: nat, j: nat, floor: Versions, errors: bool)
    requires Inv(r) && i < |r.pcs| && Enabled(r, i) && j < |r.pcs| && i != j
    requires !Carries(r.pcs[j], KeyOf(r, j), floor, errors, r.reg.slots, r.hasL2)
    requires r.pcs[i].MakeReady? && r.pcs[j] == Wait(r.pcs[i].slot) ==> !Announces(r.pcs[i], KeyOf(r, i), floor, errors)
    ensures !Carries(r.pcs[j], KeyOf(r, j), floor, errors, RegAfter(r, i).slots, r.hasL2)
  {
    assert ThreadOk(r, i) && ThreadOk(r, j);
  }

  lemma BystanderHarmless(r: Replica, l2: L2, i: nat, c: Choice, j: nat, pattern: string, floor: Versions, errors: bool)
    requires Inv(r) && i < |r.pcs| && Enabled(r, i) && j < |r.pcs| && i != j
    requires NoHarmIn(r, pattern, floor, errors) && Covered(r, j, pattern)
    requires Step(r, l2, i, c).pcs[j] == r.pcs[j]
    ensures !Harmful(Step(r, l2, i, c), j, floor, errors)
  {
    assert !Harmful(r, j, floor, errors) && ThreadOk(r, i) && ThreadOk(r, j);
    if r.pcs[i].MakeReady? && r.pcs[j] == Wait(r.pcs[i].slot) {
      assert KeyOf(r, i) == KeyOf(r, j) && Hears(r, j, i);
      assert Covered(r, i, pattern) && !Harmful(r, i, floor, errors);
    }
    BystanderCarries(r, i, j, floor, errors);
    NotHeardLater(r, l2, i, c, j);
  }

  lemma NotHeardLater(r: Replica, l2: L2, i: nat, c: Choice, j: nat)
    requires Inv(r) && i < |r.pcs| && Enabled(r, i) && j < |r.pcs|
    requires var r' := Step(r, l2, i, c);
             HeldSlot(r'.pcs[j]) == HeldSlot(r.pcs[j]) && (OwnSlot(r'.pcs[j]).Some? ==> OwnSlot(r.pcs[j]).Some?)
    ensures IsHeard(Step(r, l2, i, c), j) ==> IsHeard(r, j)
  {
    var r' := Step(r, l2, i, c);
    if IsHeard(r', j) {
      var t: nat :| t < |r'.pcs| && Hears(r', t, j);
      HeardBefore(r, l2, i, c, t, j);
    }
  }

  lemma MoverHarmless(r: Replica, l2: L2, i: nat, c: Choice, pattern: string, floor: Versions, errors: bool)
    requires Inv(r) && i < |r.pcs| && Enabled(r, i) && Covered(r, i, pattern) && !Harmful(r, i, floor, errors)
    requires L2Clean(l2, pattern, floor) && VersionOf(floor, KeyOf(r, i)) <= c.answer.version
    requires Step(r, l2, i, c).pcs[i] == NextPc(r, l2, i, c)
    ensures !Harmful(Step(r, l2, i, c), i, floor, errors)
  {
    MoverCarries(r, l2, i, c, pattern, floor, errors);
    if RoleOf(r.pcs[i]).Some? {
      FetcherAnnounces(r, l2, i, c, floor, errors);
      if Announces(NextPc(r, l2, i, c), KeyOf(r, i), floor, errors) {
        NotHeardLater(r, l2, i, c, i);
      }
    } else {
      OthersAnnounceNothing(r, i, c, floor, errors);
    }
  }

  lemma StepHarmless(r: Replica, l2: L2, i: nat, c: Choice, j: nat, pattern: string, floor: Versions, errors: bool)
    requires Inv(r) && i < |r.pcs| && Enabled(r, i) && j < |r.pcs| && Covered(r, j, pattern)
    requires NoHarmIn(r, pattern, floor, errors) && L2Clean(l2, pattern, floor)
    requires VersionOf(floor, KeyOf(r, i)) <= c.answer.version
    ensures !Harmful(Step(r, l2, i, c), j, floor, errors)
  {
    var r' := Step(r, l2, i, c);
    assert !Harmful(r, j, floor, errors) && ThreadOk(r, i);
    if j == i {
      MoverHarmless(r, l2, i, c, pattern, floor, errors);
    } else if r'.pcs[j] == r.pcs[j] {
      BystanderHarmless(r, l2, i, c, j, pattern, floor, errors);
    } else {
      assert r'.pcs[j].AskBreaker?;
    }
  }

  lemma StepNoHarm(r: Replica, l2: L2, i: nat, c: Choice, pattern: string, floor: Versions, errors: bool)
    requires Inv(r) && i < |r.pcs| && Enabled(r, i)
    requires NoHarmIn(r, pattern, floor, errors) && L2Clean(l2, pattern, floor)
    requires VersionOf(floor, KeyOf(r, i)) <= c.answer.version
    ensures NoHarmIn(Step(r, l2, i, c), pattern, floor, errors)
  {
    var r' := Step(r, l2, i, c);
    forall j: nat | j < |r'.pcs| && Covered(r', j, pattern) ensures !Harmful(r', j, floor, errors) {
      assert Covered(r, j, pattern);
      StepHarmless(r, l2, i, c, j, pattern, floor, errors);
    }
  }

  // Nothing old gets into L2 or into a clean L1.
  lemma StepStoresNoOld(r: Replica, l2: L2, i: nat, c: Choice, pattern: string, floor: Versions, errors: bool)
    requires Shaped(r) && i < |r.pcs| && Enabled(r, i)
    requires NoHarmIn(r, pattern, floor, errors) && L2Clean(l2, pattern, floor)
    ensures L2Clean(L2After(r, l2, i, c), pattern, floor)
    ensures L1Clean(r, pattern, floor) ==> L1Clean(Step(r, l2, i, c), pattern, floor)
  {
    if Covered(r, i, pattern) {
      assert !Harmful(r, i, floor, errors);
    }
  }

  // What is kept from the L2 purge on. `done` are the replicas that have handled the message.
  ghost predicate Purged(f: Fleet, pattern: string, floor: Versions, errors: bool, done: set<nat>)
    requires AllShaped(f)
  {
    && FleetOk(f) && NotBefore(f.origin, floor)
    && NoHarm(f, pattern, floor, errors)
    && L2Clean(f.l2, pattern, floor)
    && forall x :: x in done && x < |f.replicas| ==> L1Clean(f.replicas[x], pattern, floor)
  }

  function DoneAfter(done: set<nat>, e: FleetEvent, pattern: string): set<nat> {
    if e.PurgeL1? && e.pattern == pattern then done + {e.replica} else done
  }

  lemma MovePurged(f: Fleet, x: nat, i: nat, c: Choice, pattern: string, floor: Versions, errors: bool, done: set<nat>)
    requires AllShaped(f) && Purged(f, pattern, floor, errors, done) && FleetOk(ApplyFleet(f, Move(x, i, c)))
    requires x < |f.replicas| && i < |f.replicas[x].pcs| && Enabled(f.replicas[x], i)
    ensures Purged(ApplyFleet(f, Move(x, i, c)), pattern, floor, errors, done)
  {
    var r := f.replicas[x];
    var f' := ApplyFleet(f, Move(x, i, c));
    assert NoHarmIn(r, pattern, floor, errors) && ReplicaOk(r);
    StepNoHarm(r, f.l2, i, Current(f, r, i, c), pattern, floor, errors);
    StepStoresNoOld(r, f.l2, i, Current(f, r, i, c), pattern, floor, errors);
    assert forall y :: 0 <= y < |f.replicas| && y != x ==> f'.replicas[y] == f.replicas[y];
  }

  lemma ApplyPurged(f: Fleet, e: FleetEvent, pattern: string, floor: Versions, errors: bool, done: set<nat>)
    requires AllShaped(f) && Purged(f, pattern, floor, errors, done)
    ensures Purged(ApplyFleet(f, e), pattern, floor, errors, DoneAfter(done, e, pattern))
  {
    ApplyFleetOk(f, e);
    match e
    case Move(x, i, c) =>
      if x < |f.replicas| && i < |f.replicas[x].pcs| && Enabled(f.replicas[x], i) {
        MovePurged(f, x, i, c, pattern, floor, errors, done);
      }
    case Forget(x, keys) => DropPurged(f, e, x, pattern, floor, errors, done);
    case PurgeL1(x, p) => DropPurged(f, e, x, pattern, floor, errors, done);
    case _ =>
  }

  // Keys leave the L1 of one replica.
  lemma DropPurged(f: Fleet, e: FleetEvent, x: nat, pattern: string, floor: Versions, errors: bool, done: set<nat>)
    requires AllShaped(f) && Purged(f, pattern, floor, errors, done) && FleetOk(ApplyFleet(f, e))
    requires (e.Forget? || e.PurgeL1?) && e.replica == x
    ensures Purged(ApplyFleet(f, e), pattern, floor, errors, DoneAfter(done, e, pattern))
  {
    var f' := ApplyFleet(f, e);
    if x < |f.replicas| {
      assert NoHarmIn(f.replicas[x], pattern, floor, errors);
      SameThreads(f.replicas[x], f'.replicas[x], pattern, floor, errors);
    }
  }

  lemma SameHarm(r: Replica, r': Replica, i: nat, floor: Versions, errors: bool)
    requires Shaped(r) && r'.reqs == r.reqs && r'.pcs == r.pcs && r'.reg == r.reg && r'.hasL2 == r.hasL2 && i < |r.pcs|
    ensures Harmful(r', i, floor, errors) <==> Harmful(r, i, floor, errors)
  {
    assert KeyOf(r', i) == KeyOf(r, i);
    assert forall t: nat :: t < |r.pcs| ==> Hears(r', t, i) == Hears(r, t, i);
    if IsHeard(r, i) {
      var t: nat :| t < |r.pcs| && Hears(r, t, i);
      assert Hears(r', t, i);
    }
  }

  lemma SameThreads(r: Replica, r': Replica, pattern: string, floor: Versions, errors: bool)
    requires Shaped(r) && r'.reqs == r.reqs && r'.pcs == r.pcs && r'.reg == r.reg && r'.hasL2 == r.hasL2
    requires NoHarmIn(r, pattern, floor, errors)
    ensures NoHarmIn(r', pattern, floor, errors)
  {
    forall i: nat | i < |r'.pcs| && Covered(r', i, pattern) ensures !Harmful(r', i, floor, errors) {
      assert Covered(r, i, pattern);
      SameHarm(r, r', i, floor, errors);
    }
  }

  function Handled(events: seq<FleetEvent>, pattern: string): set<nat>
    decreases |events|
  {
    if events == [] then {} else DoneAfter({}, events[0], pattern) + Handled(events[1..], pattern)
  }

  lemma {:induction false} RunPurged(f: Fleet, events: seq<FleetEvent>, pattern: string, floor: Versions, errors: bool,
                                     done: set<nat>)
    requires AllShaped(f) && Purged(f, pattern, floor, errors, done)
    ensures Purged(RunFleet(f, events), pattern, floor, errors, done + Handled(events, pattern))
    decreases |events|
  {
    if events == [] {
      assert done + Handled(events, pattern) == done;
    } else {
      var done' := DoneAfter(done, events[0], pattern);
      ApplyPurged(f, events[0], pattern, floor, errors, done);
      RunPurged(ApplyFleet(f, events[0]), events[1..], pattern, floor, errors, done');
      assert done + Handled(events, pattern) == done' + Handled(events[1..], pattern);
    }
  }

  lemma PurgeStart(f: Fleet, pattern: string, errors: bool)
    requires AllShaped(f) && FleetOk(f) && NoHarm(f, pattern, f.origin, errors)
    ensures Purged(ApplyFleet(f, PurgeL2(pattern)), pattern, f.origin, errors, {})
  {
  }

  // After the L2 purge and the events, L2 has no old copy, and neither has the L1 of any replica that has handled the
  // purge message.
  ghost predicate Permanent(f: Fleet, pattern: string, events: seq<FleetEvent>)
    requires AllShaped(f)
  {
    var f' := RunFleet(ApplyFleet(f, PurgeL2(pattern)), events);
    && L2Clean(f'.l2, pattern, f.origin)
    && forall x :: x in Handled(events, pattern) && x < |f'.replicas| ==>
         L1Clean(f'.replicas[x], pattern, f.origin)
  }

  // The purge guarantee. If no thread anywhere is harmful for a covered key when L2 is purged, then whatever happens
  // afterwards L2 never again has an old copy, and neither has the L1 of any replica from the moment it handles the
  // purge message.
  lemma PurgeIsPermanent(f: Fleet, pattern: string, events: seq<FleetEvent>)
    requires AllShaped(f) && FleetOk(f) && NoHarm(f, pattern, f.origin, false)
    ensures Permanent(f, pattern, events)
  {
    PurgeStart(f, pattern, false);
    RunPurged(ApplyFleet(f, PurgeL2(pattern)), events, pattern, f.origin, false, {});
    assert {} + Handled(events, pattern) == Handled(events, pattern);
  }

  // ---------------------------------------------------------------------------------------------
  // What clients get once the whole fleet has handled the purge.

  // The response a thread has for its own client.
  predicate ServesNoOld(pc: Pc, k: Key, floor: Versions) {
    match pc
    case CountHit(resp) => !Old(resp, k, floor)
    case CountStaleHit(resp) => !Old(resp, k, floor)
    case CountStale(resp) => !Old(resp, k, floor)
    case Trigger(resp) => !Old(resp, k, floor)
    case Observe(_, Some(resp)) => !Old(resp, k, floor)
    case TellBreaker(_, Some(resp)) => !Old(resp, k, floor)
    case Decide(_, resp) => !Old(resp, k, floor)
    case PutL1(_, resp, _) => !Old(resp, k, floor)
    case PutL2(_, resp, _) => !Old(resp, k, floor)
    case Erase(_, resp, _) => !Old(resp, k, floor)
    case MakeReady(_, resp, _) => !Old(resp, k, floor)
    case ReadFlag(_, resp) => !Old(resp, k, floor)
    case PutShared(_, resp, _) => !Old(resp, k, floor)
    case Done(resp, _) => !Old(resp, k, floor)
    case _ => true
  }

  lemma FetcherServesNoOld(r: Replica, l2: L2, i: nat, c: Choice, pattern: string, floor: Versions)
    requires Shaped(r) && i < |r.pcs| && RoleOf(r.pcs[i]).Some? && Covered(r, i, pattern) && CarriedOk(r.pcs[i])
    requires !Carries(r.pcs[i], KeyOf(r, i), floor, true, r.reg.slots, r.hasL2)
    requires ServesNoOld(r.pcs[i], KeyOf(r, i), floor)
    requires VersionOf(floor, KeyOf(r, i)) <= c.answer.version
    ensures ServesNoOld(FetchNext(r, l2, i, c), KeyOf(r, i), floor)
  {
  }

  lemma LookupServesNoOld(r: Replica, i: nat, c: Choice, pattern: string, floor: Versions)
    requires Shaped(r) && i < |r.pcs| && RoleOf(r.pcs[i]).None? && !OnSlot(r.pcs[i]) && Covered(r, i, pattern)
    requires ServesNoOld(r.pcs[i], KeyOf(r, i), floor) && L1Clean(r, pattern, floor)
    ensures ServesNoOld(ServeNext(r, i, c), KeyOf(r, i), floor)
  {
  }

  // What a waiter reads is either harmless because it will be stored, or local because it is a failure.
  lemma WaiterServesNoOld(r: Replica, i: nat, c: Choice, floor: Versions)
    requires ReplicaOk(r) && i < |r.pcs| && Enabled(r, i) && OnSlot(r.pcs[i])
    requires !Carries(r.pcs[i], KeyOf(r, i), floor, true, r.reg.slots, r.hasL2)
    requires ServesNoOld(r.pcs[i], KeyOf(r, i), floor)
    ensures ServesNoOld(SlotNext(r, i, c), KeyOf(r, i), floor)
  {
    assert ThreadOk(r, i);
  }

  lemma MoverServesNoOld(r: Replica, l2: L2, i: nat, c: Choice, pattern: string, floor: Versions)
    requires ReplicaOk(r) && i < |r.pcs| && Enabled(r, i) && Covered(r, i, pattern) && !Harmful(r, i, floor, true)
    requires ServesNoOld(r.pcs[i], KeyOf(r, i), floor)
    requires L1Clean(r, pattern, floor) && VersionOf(floor, KeyOf(r, i)) <= c.answer.version
    ensures ServesNoOld(NextPc(r, l2, i, c), KeyOf(r, i), floor)
  {
    assert ThreadOk(r, i);
    if RoleOf(r.pcs[i]).Some? {
      FetcherServesNoOld(r, l2, i, c, pattern, floor);
    } else if OnSlot(r.pcs[i]) {
      WaiterServesNoOld(r, i, c, floor);
    } else {
      LookupServesNoOld(r, i, c, pattern, floor);
    }
  }

  // Request i of replica x, a request for a covered key, is not serving an old copy.
  ghost predicate ServedClean(f: Fleet, x: nat, i: nat, pattern: string, floor: Versions)
    requires AllShaped(f) && x < |f.replicas| && i < |f.replicas[x].reqs|
  {
    && Covered(f.replicas[x], i, pattern)
    && ServesNoOld(f.replicas[x].pcs[i], KeyOf(f.replicas[x], i), floor)
  }

  lemma ApplyServedClean(f: Fleet, e: FleetEvent, pattern: string, floor: Versions, done: set<nat>, x: nat, i: nat)
    requires AllShaped(f) && Purged(f, pattern, floor, true, done)
    requires x < |f.replicas| && x in done && i < |f.replicas[x].reqs|
    requires ServedClean(f, x, i, pattern, floor)
    ensures ApplyFleet(f, e).replicas[x].reqs == f.replicas[x].reqs
    ensures ServedClean(ApplyFleet(f, e), x, i, pattern, floor)
  {
    if e.Move? && e.replica == x && e.thread < |f.replicas[x].pcs| && Enabled(f.replicas[x], e.thread) {
      MoveServedClean(f, e.thread, e.choice, pattern, floor, done, x, i);
    } else {
      assert ApplyFleet(f, e).replicas[x].pcs == f.replicas[x].pcs;
    }
  }

  lemma MoveServedClean(f: Fleet, j: nat, choice: Choice, pattern: string, floor: Versions, done: set<nat>, x: nat,
                        i: nat)
    requires AllShaped(f) && Purged(f, pattern, floor, true, done)
    requires x < |f.replicas| && x in done && i < |f.replicas[x].reqs|
    requires j < |f.replicas[x].pcs| && Enabled(f.replicas[x], j) && ServedClean(f, x, i, pattern, floor)
    ensures var f' := ApplyFleet(f, Move(x, j, choice));
            f'.replicas[x].reqs == f.replicas[x].reqs && ServedClean(f', x, i, pattern, floor)
  {
    var r := f.replicas[x];
    var c := Current(f, r, j, choice);
    var r' := ApplyFleet(f, Move(x, j, choice)).replicas[x];
    assert r'.reqs == r.reqs && r'.pcs == PcsAfter(r, f.l2, j, c);
    if j == i {
      assert NoHarmIn(r, pattern, floor, true) && ReplicaOk(r);
      MoverServesNoOld(r, f.l2, i, c, pattern, floor);
    } else {
      assert r'.pcs[i] == r.pcs[i];
    }
  }

  lemma {:induction false} RunServedClean(f: Fleet, events: seq<FleetEvent>, pattern: string, floor: Versions,
                                          done: set<nat>, x: nat, i: nat)
    requires AllShaped(f) && Purged(f, pattern, floor, true, done)
    requires x < |f.replicas| && x in done && i < |f.replicas[x].reqs|
    requires ServedClean(f, x, i, pattern, floor)
    ensures var r' := RunFleet(f, events).replicas[x];
            r'.reqs == f.replicas[x].reqs
    ensures ServedClean(RunFleet(f, events), x, i, pattern, floor)
    decreases |events|
  {
    if events != [] {
      ApplyServedClean(f, events[0], pattern, floor, done, x, i);
      ApplyPurged(f, events[0], pattern, floor, true, done);
      RunServedClean(ApplyFleet(f, events[0]), events[1..], pattern, floor, DoneAfter(done, events[0], pattern), x, i);
    }
  }

  // A request for a covered key that starts after its replica has handled the purge is never answered with
  // an old copy, neither from its own L1, nor from L2, nor by coalescing with another request.
  lemma PurgedContentIsNeverServed(f: Fleet, pattern: string, before: seq<FleetEvent>, after: seq<FleetEvent>,
                                   x: nat, i: nat)
    requires AllShaped(f) && FleetOk(f) && NoHarm(f, pattern, f.origin, true)
    requires x in Handled(before, pattern) && x < |f.replicas|
    requires var mid := RunFleet(ApplyFleet(f, PurgeL2(pattern)), before);
             i < |mid.replicas[x].reqs| && mid.replicas[x].pcs[i].Start? && Covered(mid.replicas[x], i, pattern)
    ensures var r := RunFleet(RunFleet(ApplyFleet(f, PurgeL2(pattern)), before), after).replicas[x];
            && i < |r.pcs| && Covered(r, i, pattern)
            && (r.pcs[i].Done? ==> !Old(r.pcs[i].resp, KeyOf(r, i), f.origin))
  {
    var mid := RunFleet(ApplyFleet(f, PurgeL2(pattern)), before);
    PurgeStart(f, pattern, true);
    RunPurged(ApplyFleet(f, PurgeL2(pattern)), before, pattern, f.origin, true, {});
    assert {} + Handled(before, pattern) == Handled(before, pattern);
    RunServedClean(mid, after, pattern, f.origin, Handled(before, pattern), x, i);
  }

  // ---------------------------------------------------------------------------------------------
  // Why the order of the two steps matters.

  const ANY: Choice := Choice(0, 0, true, {}, Decision(true, 60, 0), Answer(true, 200, 0))

  // A fleet of one replica with one request, nothing in L1, and in L2 a copy of version 0 that is still
  // within its lifetime, while the origin has moved on to version 1.
  function Outdated(k: Key): Fleet {
    Fleet([Initial([Request(true, k)], true, Config(5, 5000, 1))],
          map[k := Stored(Response(200, Content(0), Plain), 60, 0, 0)], map[k := 1])
  }

  const MOVE: FleetEvent := Move(0, 0, ANY)
  const ROLE: Role := Leading(0, None, 0)
  const OLD_COPY: Entry := CacheEntry(Response(200, Content(0), Plain), 0, 60, 0)

  // The way of that request to the old L2 copy.
  function Path(n: nat): Pc {
    if n == 0 then Start
    else if n == 1 then Lookup(0)
    else if n == 2 then CountMiss(None, 0)
    else if n == 3 then Acquire(None, 0)
    else if n == 4 then ReadL2(ROLE)
    else if n == 5 then CountL2Hit(ROLE, OLD_COPY)
    else Promote(ROLE, OLD_COPY)
  }

  ghost predicate OnPath(f: Fleet, k: Key, n: nat) {
    && f.l2 == Outdated(k).l2 && f.origin == Outdated(k).origin && |f.replicas| == 1
    && var r := f.replicas[0];
    && r.reqs == [Request(true, k)] && |r.pcs| == 2 && r.pcs[0] == Path(n)
    && r.hasL2 && r.l1 == map[] && r.clock == 0
    && (n <= 3 ==> r.reg == Registry(map[], [], 0))
  }

  lemma Advance(f: Fleet, k: Key, n: nat)
    requires AllShaped(f) && OnPath(f, k, n) && n < 6
    ensures OnPath(ApplyFleet(f, MOVE), k, n + 1)
  {
    var r := f.replicas[0];
    var c := Current(f, r, 0, ANY);
    if n <= 3 {
      assert NextPc(r, f.l2, 0, c) == ServeNext(r, 0, c) == Path(n + 1);
    } else {
      assert NextPc(r, f.l2, 0, c) == FetchNext(r, f.l2, 0, c) == Path(n + 1);
    }
  }

  lemma RunFirst(f: Fleet, e: FleetEvent, events: seq<FleetEvent>)
    requires AllShaped(f)
    ensures RunFleet(f, [e] + events) == RunFleet(ApplyFleet(f, e), events)
  {
    assert ([e] + events)[1..] == events;
  }

  lemma LastMove(f: Fleet, k: Key)
    requires AllShaped(f) && OnPath(f, k, 6)
    ensures var f' := ApplyFleet(f, MOVE);
            |f'.replicas| == 1 && k in f'.replicas[0].l1 && f'.replicas[0].l1[k] == OLD_COPY
  {
    assert ApplyFleet(f, MOVE).replicas[0].l1 == L1After(f.replicas[0], 0, Current(f, f.replicas[0], 0, ANY));
  }

  lemma {:induction false} AdvanceAll(f: Fleet, k: Key, n: nat) returns (events: seq<FleetEvent>, f': Fleet)
    requires AllShaped(f) && OnPath(f, k, n) && n <= 6
    ensures f' == RunFleet(f, events) && forall e :: e in events ==> e == MOVE
    ensures |f'.replicas| == 1 && k in f'.replicas[0].l1 && f'.replicas[0].l1[k] == OLD_COPY
    decreases 6 - n
  {
    var rest := [];
    if n < 6 {
      Advance(f, k, n);
      rest, f' := AdvanceAll(ApplyFleet(f, MOVE), k, n + 1);
    } else {
      LastMove(f, k);
      f' := ApplyFleet(f, MOVE);
    }
    RunFirst(f, MOVE, rest);
    events := [MOVE] + rest;
  }

  // With the steps swapped, L1 before L2, the request promotes the old L2 copy between the two, and the old
  // copy is in L1 after both; and nobody held an old response that could do harm when the L1 purge ran.
  lemma SwappedOrderKeepsOldCopy(k: Key, pattern: string) returns (between: seq<FleetEvent>)
    requires Patterns.PurgeMatches(pattern, k)
    ensures forall e :: e in between ==> e == MOVE
    ensures var f := Outdated(k);
            var end := ApplyFleet(RunFleet(ApplyFleet(f, PurgeL1(0, pattern)), between), PurgeL2(pattern));
            && NoHarm(f, pattern, f.origin, true)
            && k !in end.l2
            && !L1Clean(end.replicas[0], pattern, f.origin)
  {
    var f0 := ApplyFleet(Outdated(k), PurgeL1(0, pattern));
    assert f0.replicas[0].l1 == map[];
    var f7;
    between, f7 := AdvanceAll(f0, k, 0);
    assert f7.replicas[0].l1[k] == OLD_COPY && Old(OLD_COPY.payload, k, Outdated(k).origin);
  }
}
