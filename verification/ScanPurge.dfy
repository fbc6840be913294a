// The L2 purge as the loop that it is, while the fleet goes on. The control plane scans the tier and deletes what
// matches, a few keys at a time; in between threads move, objects expire and the origin publishes. A round of the loop
// is an event in which keys leave L2, and so is an expiry. The loop leaves nothing old behind exactly when no thread is
// about to write an old response as it starts; what threads have read in the meantime matters when it ends.
module ScanPurge {
  import opened InFlight
  import opened RequestMachine
  import opened FleetPurge
  import opened PurgeExactness
  import Patterns

  // One DEL: of the keys that SCAN has reported, those whose path matches.
  function Round(pattern: string, reported: set<Key>): FleetEvent {
    Lapse(set k | k in reported && Patterns.PurgeMatches(pattern, k))
  }

  ghost predicate Leaves(k: Key, events: seq<FleetEvent>) {
    exists i :: 0 <= i < |events| && events[i].Lapse? && k in events[i].keys
  }

  // What SCAN promises of a full iteration: every matching key that is there at the start is reported, and then
  // deleted, or goes away by itself.
  ghost predicate Scanned(f: Fleet, pattern: string, loop: seq<FleetEvent>) {
    forall k :: k in f.l2 && Patterns.PurgeMatches(pattern, k) ==> Leaves(k, loop)
  }

  // A thread that is on its way to write an old response to L2. What a thread has read from L2 is never written back.
  predicate Reseeds(pc: Pc, k: Key, floor: Versions, hasL2: bool) {
    match pc
    case Observe(role, Some(resp)) => hasL2 && !role.Passing? && Counts(resp, k, floor, false)
    case TellBreaker(role, Some(resp)) => hasL2 && !role.Passing? && Counts(resp, k, floor, false)
    case Decide(role, resp) => hasL2 && !role.Passing? && Counts(resp, k, floor, false)
    case PutL1(_, _, e) => hasL2 && e.ttlSeconds != 0 && Old(e.payload, k, floor)
    case PutL2(_, _, e) => hasL2 && e.ttlSeconds != 0 && Old(e.payload, k, floor)
    case _ => false
  }

  predicate ReseedsIn(r: Replica, i: nat, floor: Versions)
    requires Shaped(r) && i < |r.pcs|
  {
    Reseeds(r.pcs[i], KeyOf(r, i), floor, r.hasL2)
  }

  ghost predicate NoReseederIn(r: Replica, pattern: string, floor: Versions)
    requires Shaped(r)
  {
    forall i: nat :: i < |r.pcs| && Covered(r, i, pattern) ==> !ReseedsIn(r, i, floor)
  }

  ghost predicate NoReseeder(f: Fleet, pattern: string, floor: Versions)
    requires AllShaped(f)
  {
    forall x :: 0 <= x < |f.replicas| ==> NoReseederIn(f.replicas[x], pattern, floor)
  }

  // ---------------------------------------------------------------------------------------------
  // Without such a thread, what the loop deletes stays away.

  // The old objects that are left in L2 are still to leave.
  ghost predicate Scanning(f: Fleet, pattern: string, floor: Versions, rest: seq<FleetEvent>)
    requires AllShaped(f)
  {
    && NotBefore(f.origin, floor) && NoReseeder(f, pattern, floor)
    && forall k :: k in f.l2 && Patterns.PurgeMatches(pattern, k) && Old(f.l2[k].payload, k, floor) ==> Leaves(k, rest)
  }

  lemma NextReseeds(r: Replica, l2: L2, i: nat, c: Choice, floor: Versions)
    requires Shaped(r) && i < |r.pcs| && Enabled(r, i) && !ReseedsIn(r, i, floor)
    requires VersionOf(floor, KeyOf(r, i)) <= c.answer.version
    ensures !Reseeds(NextPc(r, l2, i, c), KeyOf(r, i), floor, r.hasL2)
  {
    if RoleOf(r.pcs[i]).Some? {
      assert !Reseeds(FetchNext(r, l2, i, c), KeyOf(r, i), floor, r.hasL2);
    } else if OnSlot(r.pcs[i]) {
      assert !Reseeds(SlotNext(r, i, c), KeyOf(r, i), floor, r.hasL2);
    } else {
      assert !Reseeds(ServeNext(r, i, c), KeyOf(r, i), floor, r.hasL2);
    }
  }

  lemma StepReseeds(r: Replica, l2: L2, i: nat, c: Choice, pattern: string, floor: Versions)
    requires Shaped(r) && i < |r.pcs| && Enabled(r, i) && NoReseederIn(r, pattern, floor)
    requires VersionOf(floor, KeyOf(r, i)) <= c.answer.version
    ensures NoReseederIn(Step(r, l2, i, c), pattern, floor)
  {
    var r' := Step(r, l2, i, c);
    forall j: nat | j < |r'.pcs| && Covered(r', j, pattern) ensures !ReseedsIn(r', j, floor) {
      assert Covered(r, j, pattern) && KeyOf(r', j) == KeyOf(r, j);
      assert !ReseedsIn(r, j, floor);
      if j == i && r'.pcs[j] == NextPc(r, l2, i, c) {
        NextReseeds(r, l2, i, c, floor);
      } else {
        assert r'.pcs[j] == r.pcs[j] || r'.pcs[j].AskBreaker?;
      }
    }
  }

  // What a step writes to L2 is not old.
  lemma StepWrites(r: Replica, l2: L2, i: nat, c: Choice, pattern: string, floor: Versions, k: Key)
    requires Shaped(r) && i < |r.pcs| && Enabled(r, i) && NoReseederIn(r, pattern, floor)
    requires k in L2After(r, l2, i, c) && Patterns.PurgeMatches(pattern, k)
    requires Old(L2After(r, l2, i, c)[k].payload, k, floor)
    ensures k in l2 && l2[k] == L2After(r, l2, i, c)[k]
  {
    if KeyOf(r, i) == k {
      assert Covered(r, i, pattern) && !ReseedsIn(r, i, floor);
    }
  }

  lemma MoveScanning(f: Fleet, x: nat, i: nat, choice: Choice, pattern: string, floor: Versions, rest: seq<FleetEvent>)
    requires AllShaped(f) && Scanning(f, pattern, floor, rest)
    requires x < |f.replicas| && i < |f.replicas[x].pcs| && Enabled(f.replicas[x], i)
    ensures Scanning(ApplyFleet(f, Move(x, i, choice)), pattern, floor, rest)
  {
    var r, f' := f.replicas[x], ApplyFleet(f, Move(x, i, choice));
    var c := Current(f, r, i, choice);
    assert NoReseederIn(r, pattern, floor);
    StepReseeds(r, f.l2, i, c, pattern, floor);
    assert forall y :: 0 <= y < |f.replicas| && y != x ==> f'.replicas[y] == f.replicas[y];
    forall k | k in f'.l2 && Patterns.PurgeMatches(pattern, k) && Old(f'.l2[k].payload, k, floor)
      ensures Leaves(k, rest)
    {
      StepWrites(r, f.l2, i, c, pattern, floor, k);
    }
  }

  lemma SameReseeders(f: Fleet, f': Fleet, pattern: string, floor: Versions)
    requires AllShaped(f) && AllShaped(f') && |f'.replicas| == |f.replicas| && NoReseeder(f, pattern, floor)
    requires forall x :: 0 <= x < |f.replicas| ==>
               var r, r' := f.replicas[x], f'.replicas[x];
               r'.reqs == r.reqs && r'.pcs == r.pcs && r'.hasL2 == r.hasL2
    ensures NoReseeder(f', pattern, floor)
  {
    forall x | 0 <= x < |f'.replicas| ensures NoReseederIn(f'.replicas[x], pattern, floor) {
      var r, r' := f.replicas[x], f'.replicas[x];
      assert NoReseederIn(r, pattern, floor);
      forall i: nat | i < |r'.pcs| && Covered(r', i, pattern) ensures !ReseedsIn(r', i, floor) {
        assert Covered(r, i, pattern) && !ReseedsIn(r, i, floor) && KeyOf(r', i) == KeyOf(r, i);
      }
    }
  }

  lemma LeavesLater(k: Key, e: FleetEvent, rest: seq<FleetEvent>)
    requires Leaves(k, [e] + rest) && !(e.Lapse? && k in e.keys)
    ensures Leaves(k, rest)
  {
    var all := [e] + rest;
    var i :| 0 <= i < |all| && all[i].Lapse? && k in all[i].keys;
    assert all[i] == rest[i - 1];
  }

  lemma ApplyScanning(f: Fleet, e: FleetEvent, pattern: string, floor: Versions, rest: seq<FleetEvent>)
    requires AllShaped(f) && Scanning(f, pattern, floor, [e] + rest)
    ensures Scanning(ApplyFleet(f, e), pattern, floor, rest)
  {
    forall k | k in f.l2 && Patterns.PurgeMatches(pattern, k) && Old(f.l2[k].payload, k, floor)
               && !(e.Lapse? && k in e.keys)
      ensures Leaves(k, rest)
    {
      LeavesLater(k, e, rest);
    }
    match e
    case Move(x, i, c) =>
      if x < |f.replicas| && i < |f.replicas[x].pcs| && Enabled(f.replicas[x], i) {
        assert Scanning(f, pattern, floor, rest);
        MoveScanning(f, x, i, c, pattern, floor, rest);
      }
    case _ => SameReseeders(f, ApplyFleet(f, e), pattern, floor);
  }

  lemma {:induction false} RunScanning(f: Fleet, pattern: string, floor: Versions, events: seq<FleetEvent>)
    requires AllShaped(f) && Scanning(f, pattern, floor, events)
    ensures Scanning(RunFleet(f, events), pattern, floor, [])
    decreases |events|
  {
    if events != [] {
      assert events == [events[0]] + events[1..];
      ApplyScanning(f, events[0], pattern, floor, events[1..]);
      RunScanning(ApplyFleet(f, events[0]), pattern, floor, events[1..]);
    }
  }

  lemma ScanCleans(f: Fleet, pattern: string, loop: seq<FleetEvent>)
    requires AllShaped(f) && NoReseeder(f, pattern, f.origin) && Scanned(f, pattern, loop)
    ensures L2Clean(RunFleet(f, loop).l2, pattern, f.origin) && NotBefore(RunFleet(f, loop).origin, f.origin)
  {
    RunScanning(f, pattern, f.origin, loop);
  }

  // ---------------------------------------------------------------------------------------------
  // With one, the loop can end too early.

  function ToTier(pc: Pc): nat {
    match pc
    case Observe(_, _) => 4
    case TellBreaker(_, _) => 3
    case Decide(_, _) => 2
    case PutL1(_, _, _) => 1
    case _ => 0
  }

  lemma ReseederNext(r: Replica, l2: L2, i: nat, c: Choice, floor: Versions)
    requires Shaped(r) && i < |r.pcs| && ReseedsIn(r, i, floor) && Enabled(r, i) && !r.pcs[i].PutL2?
    requires c.decision.cacheable && c.decision.ttlSeconds != 0
    ensures Reseeds(NextPc(r, l2, i, c), KeyOf(r, i), floor, r.hasL2)
    ensures ToTier(NextPc(r, l2, i, c)) < ToTier(r.pcs[i]) && !Spawns(r, i)
  {
    assert NextPc(r, l2, i, c) == FetchNext(r, l2, i, c);
  }

  lemma ReseederMoves(f: Fleet, x: nat, i: nat, pattern: string, floor: Versions)
    requires At(f, x, i, pattern) && ReseedsIn(f.replicas[x], i, floor) && !f.replicas[x].pcs[i].PutL2?
    ensures At(Moved(f, x, i), x, i, pattern) && ReseedsIn(Moved(f, x, i).replicas[x], i, floor)
    ensures ToTier(Moved(f, x, i).replicas[x].pcs[i]) < ToTier(f.replicas[x].pcs[i])
  {
    MovedIs(f, x, i);
    StaysAt(f, Move(x, i, ANY), x, i, pattern);
    ReseederNext(f.replicas[x], f.l2, i, Current(f, f.replicas[x], i, ANY), floor);
  }

  lemma ReseederWrites(f: Fleet, x: nat, i: nat, pattern: string, floor: Versions)
    requires At(f, x, i, pattern) && ReseedsIn(f.replicas[x], i, floor) && f.replicas[x].pcs[i].PutL2?
    ensures !L2Clean(Moved(f, x, i).l2, pattern, floor)
  {
    var k := KeyOf(f.replicas[x], i);
    MovedIs(f, x, i);
    assert k in Moved(f, x, i).l2 && Old(Moved(f, x, i).l2[k].payload, k, floor);
  }

  lemma {:induction false} ReseederLands(f: Fleet, x: nat, i: nat, pattern: string, floor: Versions)
    returns (events: seq<FleetEvent>)
    requires At(f, x, i, pattern) && ReseedsIn(f.replicas[x], i, floor)
    ensures !L2Clean(RunFleet(f, events).l2, pattern, floor)
    decreases ToTier(f.replicas[x].pcs[i])
  {
    var rest := [];
    if f.replicas[x].pcs[i].PutL2? {
      ReseederWrites(f, x, i, pattern, floor);
    } else {
      ReseederMoves(f, x, i, pattern, floor);
      rest := ReseederLands(Moved(f, x, i), x, i, pattern, floor);
    }
    RunFirst(f, Move(x, i, ANY), rest);
    events := [Move(x, i, ANY)] + rest;
  }

  // One round takes all that matches, and then the thread writes.
  lemma ReseederOutlivesScan(f: Fleet, x: nat, i: nat, pattern: string) returns (loop: seq<FleetEvent>)
    requires At(f, x, i, pattern) && ReseedsIn(f.replicas[x], i, f.origin)
    ensures Scanned(f, pattern, loop) && !L2Clean(RunFleet(f, loop).l2, pattern, f.origin)
  {
    var round := Round(pattern, f.l2.Keys);
    StaysAt(f, round, x, i, pattern);
    var f1 := ApplyFleet(f, round);
    assert f1.replicas == f.replicas;
    var rest := ReseederLands(f1, x, i, pattern, f.origin);
    RunFirst(f, round, rest);
    loop := [round] + rest;
    forall k | k in f.l2 && Patterns.PurgeMatches(pattern, k) ensures Leaves(k, loop) {
      assert loop[0] == round && k in round.keys;
    }
  }

  // ---------------------------------------------------------------------------------------------

  // Whatever SCAN reports in which order and whatever happens in between, no old object is left in L2 when the loop
  // ends: exactly when, at its start, no thread is on its way to write one.
  lemma ScanCleansExactly(f: Fleet, pattern: string)
    requires AllShaped(f) && FleetOk(f)
    ensures NoReseeder(f, pattern, f.origin)
            <==> forall loop :: Scanned(f, pattern, loop) ==> L2Clean(RunFleet(f, loop).l2, pattern, f.origin)
  {
    if NoReseeder(f, pattern, f.origin) {
      forall loop | Scanned(f, pattern, loop) ensures L2Clean(RunFleet(f, loop).l2, pattern, f.origin) {
        ScanCleans(f, pattern, loop);
      }
    } else {
      var x :| 0 <= x < |f.replicas| && !NoReseederIn(f.replicas[x], pattern, f.origin);
      var i: nat :| i < |f.replicas[x].pcs| && Covered(f.replicas[x], i, pattern)
                    && ReseedsIn(f.replicas[x], i, f.origin);
      var loop := ReseederOutlivesScan(f, x, i, pattern);
    }
  }

  // From f on, L2 has no copy older than the floor, and neither has the L1 of any replica that has handled the message.
  ghost predicate StaysClean(f: Fleet, pattern: string, floor: Versions, events: seq<FleetEvent>)
    requires AllShaped(f)
  {
    var f' := RunFleet(f, events);
    && L2Clean(f'.l2, pattern, floor)
    && forall x :: x in Handled(events, pattern) && x < |f'.replicas| ==> L1Clean(f'.replicas[x], pattern, floor)
  }

  lemma CleanStaysClean(f: Fleet, pattern: string, floor: Versions, events: seq<FleetEvent>)
    requires AllShaped(f) && FleetOk(f) && NotBefore(f.origin, floor) && L2Clean(f.l2, pattern, floor)
    requires NoHarm(f, pattern, floor, false)
    ensures StaysClean(f, pattern, floor, events)
  {
    RunPurged(f, events, pattern, floor, false, {});
    assert {} + Handled(events, pattern) == Handled(events, pattern);
  }

  lemma HarmEndsIt(f: Fleet, x: nat, i: nat, pattern: string, floor: Versions) returns (events: seq<FleetEvent>)
    requires At(f, x, i, pattern) && Harmful(f.replicas[x], i, floor, false)
    ensures !StaysClean(f, pattern, floor, events)
  {
    var handle := PurgeL1(x, pattern);
    StaysAt(f, handle, x, i, pattern);
    SameHarm(f.replicas[x], ApplyFleet(f, handle).replicas[x], i, floor, false);
    var rest := HarmLands(ApplyFleet(f, handle), x, i, pattern, floor);
    RunFirst(f, handle, rest);
    events := [handle] + rest;
    assert events[0] == handle && x in DoneAfter({}, events[0], pattern);
    assert x in Handled(events, pattern);
  }

  // The whole purge: the loop, and then the message to every replica. After a loop that has left L2 clean, both tiers
  // stay clean in every continuation exactly when no thread is harmful at the moment the loop ends; what a thread has
  // read from L2 while the loop was running is harmful then.
  lemma ScanPurgeExactly(f: Fleet, pattern: string, loop: seq<FleetEvent>)
    requires AllShaped(f) && FleetOk(f) && NoReseeder(f, pattern, f.origin) && Scanned(f, pattern, loop)
    ensures NoHarm(RunFleet(f, loop), pattern, f.origin, false)
            <==> forall events :: StaysClean(RunFleet(f, loop), pattern, f.origin, events)
  {
    var mid := RunFleet(f, loop);
    ScanCleans(f, pattern, loop);
    RunFleetOk(f, loop);
    if NoHarm(mid, pattern, f.origin, false) {
      forall events ensures StaysClean(mid, pattern, f.origin, events) {
        CleanStaysClean(mid, pattern, f.origin, events);
      }
    } else {
      var x :| 0 <= x < |mid.replicas| && !NoHarmIn(mid.replicas[x], pattern, f.origin, false);
      var i: nat :| i < |mid.replicas[x].pcs| && Covered(mid.replicas[x], i, pattern)
                    && Harmful(mid.replicas[x], i, f.origin, false);
      var events := HarmEndsIt(mid, x, i, pattern, f.origin);
    }
  }
}
