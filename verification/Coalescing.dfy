// When do the concurrent misses of a key cost one origin fetch?
module Coalescing {
  // Every slot made for a key is one leadership, and each leadership is settled by one origin fetch, one rejection by
  // the breaker or one hit in L2.

  import opened CircuitBreakers
  import opened InFlight
  import opened RequestMachine
  import opened SingleFlight
  import opened FetchRate

  // The event asks the registry for the key, or starts a revalidation of it.
  predicate Opens(r: Replica, e: Event, k: Key)
    requires Shaped(r)
  {
    Steps(r, e) && KeyOf(r, e.thread) == k && (r.pcs[e.thread].Acquire? || Spawns(r, e.thread))
  }

  // The event takes the key's slot out of the registry.
  predicate Closes(r: Replica, e: Event, k: Key)
    requires Shaped(r)
  {
    Steps(r, e) && KeyOf(r, e.thread) == k && r.pcs[e.thread].Erase?
  }

  // Somewhere in the run the key is asked for after its slot has been taken out for the first time.
  predicate OpensLate(r: Replica, l2: L2, events: seq<Event>, k: Key, closed: bool)
    requires Shaped(r)
    decreases |events|
  {
    events != []
    && var e := events[0];
       || (closed && Opens(r, e, k))
       || OpensLate(Apply(r, l2, e), ApplyL2(r, l2, e), events[1..], k, closed || Closes(r, e, k))
  }

  // How often the key has been led.
  function Leaderships(slots: seq<Slot<Response>>, k: Key): nat {
    if slots == [] then 0
    else Leaderships(slots[..|slots| - 1], k) + (if slots[|slots| - 1].key == k then 1 else 0)
  }

  lemma LeadershipsSnoc(slots: seq<Slot<Response>>, s: Slot<Response>, k: Key)
    ensures Leaderships(slots + [s], k) == Leaderships(slots, k) + (if s.key == k then 1 else 0)
  {
    assert (slots + [s])[..|slots|] == slots;
  }

  lemma {:induction false} LeadershipsSame(a: seq<Slot<Response>>, b: seq<Slot<Response>>, k: Key)
    requires |a| == |b| && forall s :: 0 <= s < |a| ==> a[s].key == b[s].key
    ensures Leaderships(a, k) == Leaderships(b, k)
  {
    if a != [] {
      LeadershipsSame(a[..|a| - 1], b[..|b| - 1], k);
    }
  }

  // A step makes a slot for the key exactly when the key is asked for and not in flight.
  lemma StepLeaderships(r: Replica, i: nat, c: Choice, k: Key)
    requires Inv(r) && i < |r.pcs| && Enabled(r, i)
    ensures var led := Opens(r, Act(i, c), k) && k !in r.reg.inflight;
            Leaderships(RegAfter(r, i).slots, k) == Leaderships(r.reg.slots, k) + (if led then 1 else 0)
  {
    var slots := RegAfter(r, i).slots;
    SlotsOfStep(r, i, c);
    if |slots| > |r.reg.slots| {
      LeadershipsSnoc(r.reg.slots, slots[|r.reg.slots|], k);
    } else {
      LeadershipsSame(slots, r.reg.slots, k);
    }
  }

  lemma SlotsOfStep(r: Replica, i: nat, c: Choice)
    requires Inv(r) && i < |r.pcs| && Enabled(r, i)
    ensures var slots := RegAfter(r, i).slots;
            if Opens(r, Act(i, c), KeyOf(r, i)) && KeyOf(r, i) !in r.reg.inflight then
              |slots| == |r.reg.slots| + 1 && slots == r.reg.slots + [slots[|r.reg.slots|]]
              && slots[|r.reg.slots|].key == KeyOf(r, i)
            else
              |slots| == |r.reg.slots| && forall s :: 0 <= s < |slots| ==> slots[s].key == r.reg.slots[s].key
  {
    assert ThreadOk(r, i);
  }

  // ---------------------------------------------------------------------------------------------
  // Led at most once.

  ghost predicate Phase(r: Replica, k: Key, closed: bool) {
    var n := Leaderships(r.reg.slots, k);
    if closed then n == 1 && k !in r.reg.inflight else n == (if k in r.reg.inflight then 1 else 0)
  }

  lemma PhaseStep(r: Replica, l2: L2, e: Event, k: Key, closed: bool)
    requires Inv(r) && Phase(r, k, closed)
    ensures var n := Leaderships(Apply(r, l2, e).reg.slots, k);
            if closed && Opens(r, e, k) then n >= 2 else Phase(Apply(r, l2, e), k, closed || Closes(r, e, k))
  {
    if Steps(r, e) {
      StepLeaderships(r, e.thread, e.choice, k);
      assert ThreadOk(r, e.thread);
    }
  }

  lemma {:induction false} NeverFewer(r: Replica, l2: L2, events: seq<Event>, k: Key)
    requires Inv(r)
    ensures Leaderships(Run(r, l2, events).reg.slots, k) >= Leaderships(r.reg.slots, k)
    decreases |events|
  {
    if events != [] {
      var e := events[0];
      if Steps(r, e) {
        StepLeaderships(r, e.thread, e.choice, k);
      }
      ApplyInv(r, l2, e);
      NeverFewer(Apply(r, l2, e), ApplyL2(r, l2, e), events[1..], k);
    }
  }

  lemma {:induction false} RunPhase(r: Replica, l2: L2, events: seq<Event>, k: Key, closed: bool)
    requires Inv(r) && Phase(r, k, closed)
    ensures Leaderships(Run(r, l2, events).reg.slots, k) <= 1 <==> !OpensLate(r, l2, events, k, closed)
    decreases |events|
  {
    if events != [] {
      var e := events[0];
      var r1, l1 := Apply(r, l2, e), ApplyL2(r, l2, e);
      ApplyInv(r, l2, e);
      PhaseStep(r, l2, e, k, closed);
      if closed && Opens(r, e, k) {
        NeverFewer(r1, l1, events[1..], k);
      } else {
        RunPhase(r1, l1, events[1..], k, closed || Closes(r, e, k));
      }
    }
  }

  // In every run a key is led at most once exactly when nobody asks for it after its slot has been taken out for the
  // first time. All that ask before are coalesced onto that one leadership.
  lemma LedAtMostOnce(reqs: seq<Request>, hasL2: bool, cfg: Config, l2: L2, events: seq<Event>, k: Key)
    ensures Leaderships(Run(Initial(reqs, hasL2, cfg), l2, events).reg.slots, k) <= 1
            <==> !OpensLate(Initial(reqs, hasL2, cfg), l2, events, k, false)
  {
    InitialInv(reqs, hasL2, cfg);
    RunPhase(Initial(reqs, hasL2, cfg), l2, events, k, false);
  }

  // ---------------------------------------------------------------------------------------------
  // What each leadership comes to.

  // The step is a coalesced origin fetch, a rejection, or a hit in L2, for the key.
  predicate Fetches(r: Replica, e: Event, k: Key)
    requires Shaped(r)
  {
    Steps(r, e) && KeyOf(r, e.thread) == k && r.pcs[e.thread].Fetch? && !r.pcs[e.thread].role.Passing?
  }

  predicate Rejected(r: Replica, e: Event, k: Key)
    requires Shaped(r)
  {
    Steps(r, e) && KeyOf(r, e.thread) == k && r.pcs[e.thread].CountReject? && !r.pcs[e.thread].role.Passing?
  }

  predicate HitsL2(r: Replica, e: Event, k: Key)
    requires Shaped(r)
  {
    Steps(r, e) && KeyOf(r, e.thread) == k && r.pcs[e.thread].CountL2Hit?
  }

  datatype Tally = Tally(fetches: nat, rejections: nat, l2Hits: nat)

  function One(b: bool): nat {
    if b then 1 else 0
  }

  function Outcomes(r: Replica, l2: L2, events: seq<Event>, k: Key): Tally
    requires Shaped(r)
    decreases |events|
  {
    if events == [] then Tally(0, 0, 0)
    else
      var e := events[0];
      var t := Outcomes(Apply(r, l2, e), ApplyL2(r, l2, e), events[1..], k);
      Tally(t.fetches + One(Fetches(r, e, k)), t.rejections + One(Rejected(r, e, k)), t.l2Hits + One(HitsL2(r, e, k)))
  }

  predicate BeforeOutcome(pc: Pc) {
    pc.ReadL2? || pc.CountL2Hit? || pc.CountL2Miss? || pc.AskBreaker? || pc.CountReject? || pc.Fetch?
  }

  // The key is in flight and its leader has not come to any of the three yet.
  ghost predicate Undecided(r: Replica, k: Key) {
    && k in r.reg.inflight && r.reg.inflight[k] < |r.reg.slots|
    && r.reg.slots[r.reg.inflight[k]].leader < |r.pcs|
    && BeforeOutcome(r.pcs[r.reg.slots[r.reg.inflight[k]].leader])
  }

  // A coalesced thread that moves on.
  lemma Decides(r: Replica, l2: L2, i: nat, c: Choice, k: Key)
    requires Shaped(r) && i < |r.pcs| && Enabled(r, i) && KeyOf(r, i) == k
    requires RoleOf(r.pcs[i]).Some? && !RoleOf(r.pcs[i]).value.Passing?
    ensures var e := Act(i, c);
            One(BeforeOutcome(r.pcs[i])) == One(BeforeOutcome(FetchNext(r, l2, i, c)))
                                            + One(Fetches(r, e, k)) + One(Rejected(r, e, k)) + One(HitsL2(r, e, k))
  {
  }

  // The leader of the key moves.
  lemma LeaderDecides(r: Replica, l2: L2, i: nat, c: Choice, k: Key)
    requires Inv(r) && i < |r.pcs| && Enabled(r, i) && KeyOf(r, i) == k && OwnSlot(r.pcs[i]).Some?
    ensures var e := Act(i, c);
            One(Undecided(r, k)) == One(Undecided(Step(r, l2, i, c), k))
                                    + One(Fetches(r, e, k)) + One(Rejected(r, e, k)) + One(HitsL2(r, e, k))
  {
    assert ThreadOk(r, i);
    Decides(r, l2, i, c, k);
    LeaderUndecided(r, l2, i, c, k);
  }

  lemma LeaderUndecided(r: Replica, l2: L2, i: nat, c: Choice, k: Key)
    requires Inv(r) && i < |r.pcs| && Enabled(r, i) && KeyOf(r, i) == k && OwnSlot(r.pcs[i]).Some?
    ensures Undecided(r, k) <==> BeforeOutcome(r.pcs[i])
    ensures Undecided(Step(r, l2, i, c), k) <==> BeforeOutcome(FetchNext(r, l2, i, c))
  {
    assert ThreadOk(r, i);
    assert r.reg.inflight[k] == OwnSlot(r.pcs[i]).value && r.reg.slots[r.reg.inflight[k]].leader == i;
    assert NextPc(r, l2, i, c) == FetchNext(r, l2, i, c) && !Spawns(r, i);
  }

  // The key gets a new leader.
  lemma NewLeader(r: Replica, l2: L2, i: nat, c: Choice, k: Key)
    requires Inv(r) && i < |r.pcs| && Enabled(r, i) && Opens(r, Act(i, c), k) && k !in r.reg.inflight
    ensures !Undecided(r, k) && Undecided(Step(r, l2, i, c), k)
  {
    assert ThreadOk(r, i);
    assert NextPc(r, l2, i, c) == ServeNext(r, i, c);
  }

  // Any other step leaves the key's leader where it is.
  lemma LeaderStays(r: Replica, l2: L2, i: nat, c: Choice, k: Key)
    requires Inv(r) && i < |r.pcs| && Enabled(r, i) && !(Opens(r, Act(i, c), k) && k !in r.reg.inflight)
    requires !(KeyOf(r, i) == k && OwnSlot(r.pcs[i]).Some?)
    ensures Undecided(r, k) <==> Undecided(Step(r, l2, i, c), k)
  {
    assert ThreadOk(r, i);
    if k in r.reg.inflight {
      assert InFlightOk(r, k);
      var leader := r.reg.slots[r.reg.inflight[k]].leader;
      assert ThreadOk(r, leader);
    }
  }

  // A step of another than the leader is no outcome.
  lemma NoOutcome(r: Replica, i: nat, c: Choice, k: Key)
    requires Inv(r) && i < |r.pcs| && Enabled(r, i) && !(KeyOf(r, i) == k && OwnSlot(r.pcs[i]).Some?)
    ensures var e := Act(i, c); !Fetches(r, e, k) && !Rejected(r, e, k) && !HitsL2(r, e, k)
  {
    assert ThreadOk(r, i);
  }

  // One step: leaderships that are new or undecided before are undecided after it or have come to an outcome.
  lemma StepBalance(r: Replica, l2: L2, i: nat, c: Choice, k: Key)
    requires Inv(r) && i < |r.pcs| && Enabled(r, i)
    ensures var e := Act(i, c);
            One(Opens(r, e, k) && k !in r.reg.inflight) + One(Undecided(r, k))
            == One(Undecided(Step(r, l2, i, c), k))
               + One(Fetches(r, e, k)) + One(Rejected(r, e, k)) + One(HitsL2(r, e, k))
  {
    if KeyOf(r, i) == k && OwnSlot(r.pcs[i]).Some? {
      LeaderDecides(r, l2, i, c, k);
    } else {
      NoOutcome(r, i, c, k);
      if Opens(r, Act(i, c), k) && k !in r.reg.inflight {
        NewLeader(r, l2, i, c, k);
      } else {
        LeaderStays(r, l2, i, c, k);
      }
    }
  }

  lemma StepOutcome(r: Replica, l2: L2, i: nat, c: Choice, k: Key)
    requires Inv(r) && i < |r.pcs| && Enabled(r, i)
    ensures var e := Act(i, c);
            Leaderships(Step(r, l2, i, c).reg.slots, k) + One(Undecided(r, k))
            == Leaderships(r.reg.slots, k) + One(Undecided(Step(r, l2, i, c), k))
               + One(Fetches(r, e, k)) + One(Rejected(r, e, k)) + One(HitsL2(r, e, k))
  {
    StepLeaderships(r, i, c, k);
    StepBalance(r, l2, i, c, k);
  }

  lemma {:induction false} RunOutcomes(r: Replica, l2: L2, events: seq<Event>, k: Key)
    requires Inv(r)
    ensures var t := Outcomes(r, l2, events, k);
            Leaderships(Run(r, l2, events).reg.slots, k) + One(Undecided(r, k))
            == Leaderships(r.reg.slots, k) + One(Undecided(Run(r, l2, events), k))
               + t.fetches + t.rejections + t.l2Hits
    decreases |events|
  {
    if events != [] {
      var e := events[0];
      if Steps(r, e) {
        StepOutcome(r, l2, e.thread, e.choice, k);
      }
      ApplyInv(r, l2, e);
      RunOutcomes(Apply(r, l2, e), ApplyL2(r, l2, e), events[1..], k);
    }
  }

  // When all is finished, every leadership of a key has come to exactly one of the three.
  lemma LeadershipsAreSettled(reqs: seq<Request>, hasL2: bool, cfg: Config, l2: L2, events: seq<Event>, k: Key)
    requires Finished(Run(Initial(reqs, hasL2, cfg), l2, events))
    ensures var r0 := Initial(reqs, hasL2, cfg);
            var t := Outcomes(r0, l2, events, k);
            Leaderships(Run(r0, l2, events).reg.slots, k) == t.fetches + t.rejections + t.l2Hits
  {
    var r0 := Initial(reqs, hasL2, cfg);
    InitialInv(reqs, hasL2, cfg);
    RunInv(r0, l2, events);
    RunOutcomes(r0, l2, events, k);
    var r := Run(r0, l2, events);
    if k in r.reg.inflight {
      assert InFlightOk(r, k);
    }
  }

  predicate OpensEver(r: Replica, l2: L2, events: seq<Event>, k: Key)
    requires Shaped(r)
    decreases |events|
  {
    events != []
    && (Opens(r, events[0], k) || OpensEver(Apply(r, l2, events[0]), ApplyL2(r, l2, events[0]), events[1..], k))
  }

  lemma {:induction false} LedIfAsked(r: Replica, l2: L2, events: seq<Event>, k: Key)
    requires Inv(r) && k !in r.reg.inflight && Leaderships(r.reg.slots, k) == 0
    ensures Leaderships(Run(r, l2, events).reg.slots, k) >= 1 <==> OpensEver(r, l2, events, k)
    decreases |events|
  {
    if events != [] {
      var e := events[0];
      ApplyInv(r, l2, e);
      PhaseStep(r, l2, e, k, false);
      if Steps(r, e) {
        StepLeaderships(r, e.thread, e.choice, k);
        assert ThreadOk(r, e.thread);
      }
      if Opens(r, e, k) {
        NeverFewer(Apply(r, l2, e), ApplyL2(r, l2, e), events[1..], k);
      } else {
        LedIfAsked(Apply(r, l2, e), ApplyL2(r, l2, e), events[1..], k);
      }
    }
  }

  // When the breaker admits and L2 has nothing, a finished run has had exactly one coalesced origin fetch for a key if
  // and only if the key was asked for, and never after its slot had been taken out for the first time.
  lemma ExactlyOneFetch(reqs: seq<Request>, hasL2: bool, cfg: Config, l2: L2, events: seq<Event>, k: Key)
    requires Finished(Run(Initial(reqs, hasL2, cfg), l2, events))
    requires var t := Outcomes(Initial(reqs, hasL2, cfg), l2, events, k); t.rejections == 0 && t.l2Hits == 0
    ensures var r0 := Initial(reqs, hasL2, cfg);
            Outcomes(r0, l2, events, k).fetches == 1
            <==> OpensEver(r0, l2, events, k) && !OpensLate(r0, l2, events, k, false)
  {
    InitialInv(reqs, hasL2, cfg);
    LedAtMostOnce(reqs, hasL2, cfg, l2, events, k);
    LedIfAsked(Initial(reqs, hasL2, cfg), l2, events, k);
    LeadershipsAreSettled(reqs, hasL2, cfg, l2, events, k);
  }
}
