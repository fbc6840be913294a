// The condition under which the purge is permanent is exact: from every harmful thread there is a way for its old
// response into a cache, after L2 has been purged and after the replica has handled the purge message. A thread that
// carries the response only has to go on. A thread that is about to publish it needs somebody who waits for it: first
// the listener is brought to the slot, then the publisher fills it, and then the listener carries the response.
module PurgeExactness {
  import opened InFlight
  import opened RequestMachine
  import opened SingleFlight
  import opened FleetPurge

  ghost predicate Spoiled(f: Fleet, x: nat, pattern: string, floor: Versions)
    requires x < |f.replicas|
  {
    !L2Clean(f.l2, pattern, floor) || !L1Clean(f.replicas[x], pattern, floor)
  }

  // A fleet in order, and a thread for a covered key.
  ghost predicate At(f: Fleet, x: nat, i: nat, pattern: string) {
    && AllShaped(f) && FleetOk(f) && x < |f.replicas| && i < |f.replicas[x].pcs| && Covered(f.replicas[x], i, pattern)
  }

  predicate CarriesIn(r: Replica, i: nat, floor: Versions)
    requires Shaped(r) && i < |r.pcs|
  {
    Carries(r.pcs[i], KeyOf(r, i), floor, false, r.reg.slots, r.hasL2)
  }

  predicate AnnouncesIn(r: Replica, i: nat, floor: Versions)
    requires Shaped(r) && i < |r.pcs|
  {
    Announces(r.pcs[i], KeyOf(r, i), floor, false)
  }

  // The replica after a move of a thread; the choices are such that everything is stored and nothing is evicted.
  function Moved(f: Fleet, x: nat, i: nat): (f': Fleet)
    requires AllShaped(f)
    ensures AllShaped(f') && |f'.replicas| == |f.replicas|
  {
    ApplyFleet(f, Move(x, i, ANY))
  }

  lemma MovedIs(f: Fleet, x: nat, i: nat)
    requires AllShaped(f) && x < |f.replicas| && i < |f.replicas[x].pcs| && Enabled(f.replicas[x], i)
    ensures var r, c := f.replicas[x], Current(f, f.replicas[x], i, ANY);
            && Moved(f, x, i).replicas[x] == Step(r, f.l2, i, c) && Moved(f, x, i).l2 == L2After(r, f.l2, i, c)
            && Moved(f, x, i).replicas[x].reqs == r.reqs && c.evicted == {} && c.l2Up && c.decision.cacheable
  {
  }

  lemma StaysAt(f: Fleet, e: FleetEvent, x: nat, i: nat, pattern: string)
    requires At(f, x, i, pattern)
    ensures At(ApplyFleet(f, e), x, i, pattern)
    ensures ApplyFleet(f, e).replicas[x].reqs == f.replicas[x].reqs
  {
    ApplyFleetOk(f, e);
    assert ReplicaOk(ApplyFleet(f, e).replicas[x]);
    SameRequests(f, e, x);
  }

  lemma SameRequests(f: Fleet, e: FleetEvent, x: nat)
    requires AllShaped(f) && x < |f.replicas|
    ensures ApplyFleet(f, e).replicas[x].reqs == f.replicas[x].reqs
  {
  }

  // ---------------------------------------------------------------------------------------------
  // A thread that carries an old response needs only to go on.

  function Distance(pc: Pc): nat {
    match pc
    case CountL2Hit(_, _) => 2
    case Promote(_, _) => 1
    case Observe(_, _) => 4
    case TellBreaker(_, _) => 3
    case Decide(_, _) => 2
    case PutL1(_, _, _) => 1
    case PutL2(_, _, _) => 1
    case Wait(_) => 4
    case ReadResponse(_) => 3
    case ReadFlag(_, _) => 2
    case PutShared(_, _, _) => 1
    case _ => 0
  }

  lemma CarrierIsEnabled(r: Replica, i: nat, floor: Versions)
    requires Inv(r) && i < |r.pcs| && CarriesIn(r, i, floor)
    ensures Enabled(r, i)
  {
    assert ThreadOk(r, i);
  }

  lemma CarrierNext(r: Replica, l2: L2, i: nat, c: Choice, floor: Versions)
    requires Inv(r) && i < |r.pcs| && CarriesIn(r, i, floor) && Enabled(r, i) && c.decision.cacheable
    requires Distance(r.pcs[i]) > 1
    ensures Carries(NextPc(r, l2, i, c), KeyOf(r, i), floor, false, r.reg.slots, r.hasL2)
    ensures Distance(NextPc(r, l2, i, c)) < Distance(r.pcs[i]) && RegAfter(r, i) == r.reg && !Spawns(r, i)
  {
    assert ThreadOk(r, i);
    if RoleOf(r.pcs[i]).Some? {
      assert NextPc(r, l2, i, c) == FetchNext(r, l2, i, c);
    } else {
      assert NextPc(r, l2, i, c) == SlotNext(r, i, c);
    }
  }

  lemma CarrierStores(r: Replica, l2: L2, i: nat, c: Choice, pattern: string, floor: Versions)
    requires Inv(r) && i < |r.pcs| && CarriesIn(r, i, floor) && Enabled(r, i) && Covered(r, i, pattern)
    requires Distance(r.pcs[i]) <= 1 && c.evicted == {} && c.l2Up
    ensures !L2Clean(L2After(r, l2, i, c), pattern, floor) || !L1Clean(Step(r, l2, i, c), pattern, floor)
  {
    var k := KeyOf(r, i);
    if r.pcs[i].PutL2? {
      assert k in L2After(r, l2, i, c) && Old(L2After(r, l2, i, c)[k].payload, k, floor);
    } else {
      var r' := Step(r, l2, i, c);
      assert k in r'.l1 && Old(r'.l1[k].payload, k, floor);
    }
  }

  lemma CarrierMoves(f: Fleet, x: nat, i: nat, pattern: string, floor: Versions)
    requires At(f, x, i, pattern) && CarriesIn(f.replicas[x], i, floor)
    ensures At(Moved(f, x, i), x, i, pattern)
    ensures Distance(f.replicas[x].pcs[i]) <= 1 ==> Spoiled(Moved(f, x, i), x, pattern, floor)
    ensures Distance(f.replicas[x].pcs[i]) > 1 ==>
              && CarriesIn(Moved(f, x, i).replicas[x], i, floor)
              && Distance(Moved(f, x, i).replicas[x].pcs[i]) < Distance(f.replicas[x].pcs[i])
  {
    var r := f.replicas[x];
    assert ReplicaOk(r);
    CarrierIsEnabled(r, i, floor);
    MovedIs(f, x, i);
    StaysAt(f, Move(x, i, ANY), x, i, pattern);
    var c := Current(f, r, i, ANY);
    if Distance(r.pcs[i]) <= 1 {
      CarrierStores(r, f.l2, i, c, pattern, floor);
    } else {
      CarrierNext(r, f.l2, i, c, floor);
    }
  }

  lemma {:induction false} CarrierLands(f: Fleet, x: nat, i: nat, pattern: string, floor: Versions)
    returns (events: seq<FleetEvent>)
    requires At(f, x, i, pattern) && CarriesIn(f.replicas[x], i, floor)
    ensures Spoiled(RunFleet(f, events), x, pattern, floor)
    decreases Distance(f.replicas[x].pcs[i])
  {
    CarrierMoves(f, x, i, pattern, floor);
    var rest := [];
    if Distance(f.replicas[x].pcs[i]) > 1 {
      rest := CarrierLands(Moved(f, x, i), x, i, pattern, floor);
    }
    RunFirst(f, Move(x, i, ANY), rest);
    events := [Move(x, i, ANY)] + rest;
  }

  // ---------------------------------------------------------------------------------------------
  // A thread that announces one, and another that can hear it: first the second comes to wait, then the first
  // publishes, and then the second carries the response.

  function ToWait(pc: Pc): nat {
    match pc
    case Start => 4
    case Lookup(_) => 3
    case CountMiss(_, _) => 2
    case Acquire(_, _) => 1
    case _ => 0
  }

  function ToPublish(pc: Pc): nat {
    match pc
    case PutL1(_, _, _) => 4
    case PutL2(_, _, _) => 3
    case Erase(_, _, _) => 2
    case MakeReady(_, _, _) => 1
    case _ => 0
  }

  ghost predicate Pair(f: Fleet, x: nat, i: nat, t: nat, pattern: string, floor: Versions) {
    && At(f, x, i, pattern) && t < |f.replicas[x].pcs| && Hears(f.replicas[x], t, i)
    && AnnouncesIn(f.replicas[x], i, floor)
  }

  // The key leaves L1, and the listener makes a move towards waiting.
  lemma ListenerNext(r: Replica, l2: L2, t: nat, i: nat, c: Choice, floor: Versions)
    requires Inv(r) && t < |r.pcs| && i < |r.pcs| && Hears(r, t, i) && AnnouncesIn(r, i, floor)
    requires !r.pcs[t].Wait? && KeyOf(r, t) !in r.l1
    ensures t != i && Enabled(r, t) && t < |r.reqs| && !Spawns(r, t)
    ensures var next := NextPc(r, l2, t, c);
            && (next == Wait(OwnSlot(r.pcs[i]).value) || MayJoin(next, RequestOf(r, t).cacheable))
            && ToWait(next) < ToWait(r.pcs[t])
  {
    assert ThreadOk(r, t) && ThreadOk(r, i);
    assert NextPc(r, l2, t, c) == ServeNext(r, t, c);
  }

  lemma ListenerMoves(f: Fleet, x: nat, i: nat, t: nat, pattern: string, floor: Versions)
    requires Pair(f, x, i, t, pattern, floor) && !f.replicas[x].pcs[t].Wait?
    ensures var f' := Moved(ApplyFleet(f, Forget(x, {KeyOf(f.replicas[x], t)})), x, t);
            && Pair(f', x, i, t, pattern, floor) && f'.replicas[x].pcs[i] == f.replicas[x].pcs[i]
            && ToWait(f'.replicas[x].pcs[t]) < ToWait(f.replicas[x].pcs[t])
  {
    var g := ApplyFleet(f, Forget(x, {KeyOf(f.replicas[x], t)}));
    KeyForgotten(f, x, i, t, pattern, floor);
    ListenerSteps(g, x, i, t, pattern, floor);
  }

  lemma KeyForgotten(f: Fleet, x: nat, i: nat, t: nat, pattern: string, floor: Versions)
    requires Pair(f, x, i, t, pattern, floor)
    ensures var g := ApplyFleet(f, Forget(x, {KeyOf(f.replicas[x], t)}));
            && Pair(g, x, i, t, pattern, floor) && g.replicas[x].pcs == f.replicas[x].pcs
            && KeyOf(g.replicas[x], t) == KeyOf(f.replicas[x], t) && KeyOf(g.replicas[x], t) !in g.replicas[x].l1
  {
    var k := KeyOf(f.replicas[x], t);
    StaysAt(f, Forget(x, {k}), x, i, pattern);
    ForgetsKey(f, x, k);
    SameTalk(f.replicas[x], ApplyFleet(f, Forget(x, {k})).replicas[x], i, t, floor);
  }

  lemma SameTalk(r: Replica, r': Replica, i: nat, t: nat, floor: Versions)
    requires Shaped(r) && r'.pcs == r.pcs && r'.reqs == r.reqs && i < |r.pcs| && t < |r.pcs|
    ensures KeyOf(r', t) == KeyOf(r, t)
    ensures Hears(r', t, i) == Hears(r, t, i) && AnnouncesIn(r', i, floor) == AnnouncesIn(r, i, floor)
  {
  }

  lemma ForgetsKey(f: Fleet, x: nat, k: Key)
    requires AllShaped(f) && x < |f.replicas|
    ensures var r, r' := f.replicas[x], ApplyFleet(f, Forget(x, {k})).replicas[x];
            && r'.pcs == r.pcs && r'.reqs == r.reqs && r'.reg == r.reg && r'.hasL2 == r.hasL2 && k !in r'.l1
  {
  }

  lemma ListenerSteps(f: Fleet, x: nat, i: nat, t: nat, pattern: string, floor: Versions)
    requires Pair(f, x, i, t, pattern, floor) && !f.replicas[x].pcs[t].Wait?
    requires KeyOf(f.replicas[x], t) !in f.replicas[x].l1
    ensures var f' := Moved(f, x, t);
            && Pair(f', x, i, t, pattern, floor) && f'.replicas[x].pcs[i] == f.replicas[x].pcs[i]
            && ToWait(f'.replicas[x].pcs[t]) < ToWait(f.replicas[x].pcs[t])
  {
    var r := f.replicas[x];
    assert ReplicaOk(r);
    ListenerNext(r, f.l2, t, i, Current(f, r, t, ANY), floor);
    MovedIs(f, x, t);
    StaysAt(f, Move(x, t, ANY), x, i, pattern);
  }

  // The publisher makes a move, while the listener waits: first the two of them,
  lemma PublisherIsEnabled(r: Replica, i: nat, t: nat, floor: Versions)
    requires Inv(r) && t < |r.pcs| && i < |r.pcs| && Hears(r, t, i) && AnnouncesIn(r, i, floor) && r.pcs[t].Wait?
    ensures t != i && Enabled(r, i) && !Spawns(r, i) && r.pcs[t] == Wait(HeldSlot(r.pcs[i]).value)
  {
    assert ThreadOk(r, t) && ThreadOk(r, i);
  }

  // then the last step, which fills the slot,
  lemma PublisherFills(r: Replica, i: nat, floor: Versions)
    requires Inv(r) && i < |r.pcs| && Enabled(r, i) && AnnouncesIn(r, i, floor) && r.pcs[i].MakeReady?
    ensures HasOld(RegAfter(r, i).slots, HeldSlot(r.pcs[i]).value, KeyOf(r, i), floor, false)
  {
    assert ThreadOk(r, i);
  }

  // and the steps before it.
  lemma PublisherNext(r: Replica, l2: L2, i: nat, c: Choice, floor: Versions)
    requires Inv(r) && i < |r.pcs| && AnnouncesIn(r, i, floor) && Enabled(r, i) && !r.pcs[i].MakeReady?
    ensures var next := NextPc(r, l2, i, c);
            && Announces(next, KeyOf(r, i), floor, false) && HeldSlot(next) == HeldSlot(r.pcs[i])
            && ToPublish(next) < ToPublish(r.pcs[i])
  {
    assert ThreadOk(r, i);
    assert NextPc(r, l2, i, c) == FetchNext(r, l2, i, c);
  }

  // In the fleet, the listener stays where it is,
  lemma PublisherStep(f: Fleet, x: nat, i: nat, t: nat, pattern: string, floor: Versions)
    requires Pair(f, x, i, t, pattern, floor) && f.replicas[x].pcs[t].Wait?
    ensures var f' := Moved(f, x, i);
            && Enabled(f.replicas[x], i) && f'.replicas[x].pcs[t] == f.replicas[x].pcs[t]
            && f.replicas[x].pcs[t] == Wait(HeldSlot(f.replicas[x].pcs[i]).value)
            && At(f', x, i, pattern) && At(f', x, t, pattern)
  {
    assert ReplicaOk(f.replicas[x]);
    PublisherIsEnabled(f.replicas[x], i, t, floor);
    MovedIs(f, x, i);
    StaysAt(f, Move(x, i, ANY), x, i, pattern);
    StaysAt(f, Move(x, i, ANY), x, t, pattern);
  }

  // hears in the end,
  lemma PublisherEnds(f: Fleet, x: nat, i: nat, t: nat, pattern: string, floor: Versions)
    requires Pair(f, x, i, t, pattern, floor) && f.replicas[x].pcs[t].Wait? && f.replicas[x].pcs[i].MakeReady?
    ensures At(Moved(f, x, i), x, t, pattern) && CarriesIn(Moved(f, x, i).replicas[x], t, floor)
  {
    assert ReplicaOk(f.replicas[x]);
    PublisherStep(f, x, i, t, pattern, floor);
    PublisherFills(f.replicas[x], i, floor);
    MovedIs(f, x, i);
  }

  // and can still hear before.
  lemma PublisherMoves(f: Fleet, x: nat, i: nat, t: nat, pattern: string, floor: Versions)
    requires Pair(f, x, i, t, pattern, floor) && f.replicas[x].pcs[t].Wait? && !f.replicas[x].pcs[i].MakeReady?
    ensures Pair(Moved(f, x, i), x, i, t, pattern, floor)
    ensures Moved(f, x, i).replicas[x].pcs[t].Wait?
    ensures ToPublish(Moved(f, x, i).replicas[x].pcs[i]) < ToPublish(f.replicas[x].pcs[i])
  {
    assert ReplicaOk(f.replicas[x]);
    PublisherStep(f, x, i, t, pattern, floor);
    PublisherNext(f.replicas[x], f.l2, i, Current(f, f.replicas[x], i, ANY), floor);
    MovedIs(f, x, i);
  }

  lemma {:induction false} PairLands(f: Fleet, x: nat, i: nat, t: nat, pattern: string, floor: Versions)
    returns (events: seq<FleetEvent>)
    requires Pair(f, x, i, t, pattern, floor)
    ensures Spoiled(RunFleet(f, events), x, pattern, floor)
    decreases ToWait(f.replicas[x].pcs[t]) + ToPublish(f.replicas[x].pcs[i])
  {
    if !f.replicas[x].pcs[t].Wait? {
      var forget := Forget(x, {KeyOf(f.replicas[x], t)});
      ListenerMoves(f, x, i, t, pattern, floor);
      var rest := PairLands(Moved(ApplyFleet(f, forget), x, t), x, i, t, pattern, floor);
      RunFirst(ApplyFleet(f, forget), Move(x, t, ANY), rest);
      RunFirst(f, forget, [Move(x, t, ANY)] + rest);
      events := [forget] + ([Move(x, t, ANY)] + rest);
    } else {
      var rest;
      if f.replicas[x].pcs[i].MakeReady? {
        PublisherEnds(f, x, i, t, pattern, floor);
        rest := CarrierLands(Moved(f, x, i), x, t, pattern, floor);
      } else {
        PublisherMoves(f, x, i, t, pattern, floor);
        rest := PairLands(Moved(f, x, i), x, i, t, pattern, floor);
      }
      RunFirst(f, Move(x, i, ANY), rest);
      events := [Move(x, i, ANY)] + rest;
    }
  }

  // ---------------------------------------------------------------------------------------------

  // From a harmful thread there is a way into a cache.
  lemma HarmLands(f: Fleet, x: nat, i: nat, pattern: string, floor: Versions) returns (events: seq<FleetEvent>)
    requires At(f, x, i, pattern) && Harmful(f.replicas[x], i, floor, false)
    ensures Spoiled(RunFleet(f, events), x, pattern, floor)
  {
    if CarriesIn(f.replicas[x], i, floor) {
      events := CarrierLands(f, x, i, pattern, floor);
    } else {
      var t: nat :| t < |f.replicas[x].pcs| && Hears(f.replicas[x], t, i);
      events := PairLands(f, x, i, t, pattern, floor);
    }
  }

  // Both purge steps leave a harmful thread as it is.
  lemma HarmSurvivesPurge(f: Fleet, x: nat, i: nat, pattern: string, floor: Versions)
    requires At(f, x, i, pattern) && Harmful(f.replicas[x], i, floor, false)
    ensures var f' := ApplyFleet(ApplyFleet(f, PurgeL2(pattern)), PurgeL1(x, pattern));
            At(f', x, i, pattern) && Harmful(f'.replicas[x], i, floor, false)
  {
    var f1 := ApplyFleet(f, PurgeL2(pattern));
    StaysAt(f, PurgeL2(pattern), x, i, pattern);
    StaysAt(f1, PurgeL1(x, pattern), x, i, pattern);
    SameHarm(f.replicas[x], ApplyFleet(f1, PurgeL1(x, pattern)).replicas[x], i, floor, false);
  }

  lemma HolderUndoesPurge(f: Fleet, x: nat, i: nat, pattern: string) returns (events: seq<FleetEvent>)
    requires At(f, x, i, pattern) && Harmful(f.replicas[x], i, f.origin, false)
    ensures !Permanent(f, pattern, events)
  {
    var f1 := ApplyFleet(f, PurgeL2(pattern));
    HarmSurvivesPurge(f, x, i, pattern, f.origin);
    var rest := HarmLands(ApplyFleet(f1, PurgeL1(x, pattern)), x, i, pattern, f.origin);
    RunFirst(f1, PurgeL1(x, pattern), rest);
    events := [PurgeL1(x, pattern)] + rest;
    assert events[0] == PurgeL1(x, pattern) && x in DoneAfter({}, events[0], pattern);
    assert x in Handled(events, pattern);
  }

  // The purge of a pattern is permanent, in every continuation, exactly when no thread is harmful when it begins.
  lemma PurgeIsPermanentExactly(f: Fleet, pattern: string)
    requires AllShaped(f) && FleetOk(f)
    ensures NoHarm(f, pattern, f.origin, false) <==> forall events :: Permanent(f, pattern, events)
  {
    if NoHarm(f, pattern, f.origin, false) {
      forall events ensures Permanent(f, pattern, events) {
        PurgeIsPermanent(f, pattern, events);
      }
    } else {
      var x :| 0 <= x < |f.replicas| && !NoHarmIn(f.replicas[x], pattern, f.origin, false);
      var i: nat :| i < |f.replicas[x].pcs| && Covered(f.replicas[x], i, pattern)
                    && Harmful(f.replicas[x], i, f.origin, false);
      var events := HolderUndoesPurge(f, x, i, pattern);
    }
  }
}
