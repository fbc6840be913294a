// What the shared tier can contain: undecorated origin answers only.
module L2Origins {
  // They are written by the thread that fetched them. So a copy read from L2 never goes back into L2, and the window in
  // which it can be served does not grow from promotion to promotion.

  import opened CircuitBreakers
  import opened RequestMachine

  predicate OriginAnswer(resp: Response) {
    resp.body.Content? && resp.tag == Plain
  }

  // A thread between its origin fetch and its stores holds exactly what the origin answered.
  predicate HoldsAnswer(pc: Pc) {
    match pc
    case Observe(_, Some(resp)) => OriginAnswer(resp)
    case TellBreaker(_, Some(resp)) => OriginAnswer(resp)
    case Decide(_, resp) => OriginAnswer(resp)
    case PutL1(_, resp, e) => OriginAnswer(resp) && e.payload == resp
    case PutL2(_, resp, e) => OriginAnswer(resp) && e.payload == resp
    case _ => true
  }

  ghost predicate AllHold(r: Replica) {
    forall i :: 0 <= i < |r.pcs| ==> HoldsAnswer(r.pcs[i])
  }

  ghost predicate OnlyAnswers(l2: L2) {
    forall k :: k in l2 ==> OriginAnswer(l2[k].payload)
  }

  // The L2 tier at the end of a run.
  function RunL2(r: Replica, l2: L2, events: seq<Event>): L2
    requires Shaped(r)
    decreases |events|
  {
    if events == [] then l2 else RunL2(Apply(r, l2, events[0]), ApplyL2(r, l2, events[0]), events[1..])
  }

  // The other replicas keep to the same discipline.
  ghost predicate Disciplined(events: seq<Event>) {
    forall i :: 0 <= i < |events| && events[i].Elsewhere? ==> OnlyAnswers(events[i].l2)
  }

  lemma NextHolds(r: Replica, l2: L2, i: nat, c: Choice)
    requires Shaped(r) && i < |r.pcs| && Enabled(r, i) && HoldsAnswer(r.pcs[i])
    ensures HoldsAnswer(NextPc(r, l2, i, c))
  {
    if RoleOf(r.pcs[i]).Some? {
      assert HoldsAnswer(FetchNext(r, l2, i, c));
    } else if OnSlot(r.pcs[i]) {
      assert HoldsAnswer(SlotNext(r, i, c));
    } else {
      assert HoldsAnswer(ServeNext(r, i, c));
    }
  }

  lemma ApplyHolds(r: Replica, l2: L2, e: Event)
    requires Shaped(r) && AllHold(r) && OnlyAnswers(l2) && (e.Elsewhere? ==> OnlyAnswers(e.l2))
    ensures AllHold(Apply(r, l2, e)) && OnlyAnswers(ApplyL2(r, l2, e))
  {
    if e.Act? && e.thread < |r.pcs| && Enabled(r, e.thread) {
      NextHolds(r, l2, e.thread, e.choice);
    }
  }

  // In every run, whatever the schedule, everything in L2 is an undecorated origin answer.
  lemma {:induction false} L2HoldsOriginAnswers(r: Replica, l2: L2, events: seq<Event>)
    requires Shaped(r) && AllHold(r) && OnlyAnswers(l2) && Disciplined(events)
    ensures AllHold(Run(r, l2, events)) && OnlyAnswers(RunL2(r, l2, events))
    decreases |events|
  {
    if events != [] {
      ApplyHolds(r, l2, events[0]);
      assert forall i :: 0 <= i < |events| - 1 ==> events[1..][i] == events[i + 1];
      L2HoldsOriginAnswers(Apply(r, l2, events[0]), ApplyL2(r, l2, events[0]), events[1..]);
    }
  }

  lemma InitialHolds(reqs: seq<Request>, hasL2: bool, cfg: Config)
    ensures AllHold(Initial(reqs, hasL2, cfg))
  {
  }
}
