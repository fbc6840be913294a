// Where served content comes from.
module Provenance {
  // Caches, the shared tier, slots and threads all hand responses around by key; whatever the interleaving, content
  // that the origin has given for one key is never served for another.

  import opened CircuitBreakers
  import opened InFlight
  import opened RequestMachine
  import opened SingleFlight

  // Which content the origin gives for which key; any relation will do.
  type Origin = (Key, nat) -> bool

  predicate Genuine(o: Origin, k: Key, resp: Response) {
    resp.body.Content? ==> o(k, resp.body.version)
  }

  // Every response a thread carries for the key.
  predicate PcGenuine(o: Origin, k: Key, pc: Pc) {
    && (Carried(pc).Some? ==> Genuine(o, k, Carried(pc).value.0.payload))
    && match pc
       case CountHit(resp) => Genuine(o, k, resp)
       case CountStaleHit(resp) => Genuine(o, k, resp)
       case CountStale(resp) => Genuine(o, k, resp)
       case Trigger(resp) => Genuine(o, k, resp)
       case CountL2Hit(_, e) => Genuine(o, k, e.payload)
       case Promote(_, e) => Genuine(o, k, e.payload)
       case Observe(_, Some(resp)) => Genuine(o, k, resp)
       case TellBreaker(_, Some(resp)) => Genuine(o, k, resp)
       case Decide(_, resp) => Genuine(o, k, resp)
       case PutL1(_, resp, e) => Genuine(o, k, resp) && Genuine(o, k, e.payload)
       case PutL2(_, resp, e) => Genuine(o, k, resp) && Genuine(o, k, e.payload)
       case Erase(_, resp, _) => Genuine(o, k, resp)
       case MakeReady(_, resp, _) => Genuine(o, k, resp)
       case ReadFlag(_, resp) => Genuine(o, k, resp)
       case PutShared(_, resp, e) => Genuine(o, k, resp) && Genuine(o, k, e.payload)
       case Done(resp, _) => Genuine(o, k, resp)
       case _ => true
  }

  ghost predicate ThreadsGenuine(o: Origin, r: Replica)
    requires Shaped(r)
  {
    forall i: nat :: i < |r.pcs| ==> PcGenuine(o, KeyOf(r, i), r.pcs[i])
  }

  ghost predicate SlotsGenuine(o: Origin, reg: Registry<Response>) {
    forall s :: 0 <= s < |reg.slots| ==> Genuine(o, reg.slots[s].key, reg.slots[s].response)
  }

  ghost predicate L1Genuine(o: Origin, l1: map<Key, Entry>) {
    forall k :: k in l1 ==> Genuine(o, k, l1[k].payload)
  }

  ghost predicate L2Genuine(o: Origin, l2: L2) {
    forall k :: k in l2 ==> Genuine(o, k, l2[k].payload)
  }

  ghost predicate AllGenuine(o: Origin, r: Replica, l2: L2)
    requires Shaped(r)
  {
    ThreadsGenuine(o, r) && SlotsGenuine(o, r.reg) && L1Genuine(o, r.l1) && L2Genuine(o, l2)
  }

  // The origin answers a request for a key with content for that key; other replicas write such content to L2.
  ghost predicate HonestEvent(o: Origin, r: Replica, e: Event)
    requires Shaped(r)
  {
    && (e.Act? && e.thread < |r.pcs| ==> o(KeyOf(r, e.thread), e.choice.answer.version))
    && (e.Elsewhere? ==> L2Genuine(o, e.l2))
  }

  lemma FetcherGenuine(o: Origin, r: Replica, l2: L2, i: nat, c: Choice)
    requires Shaped(r) && i < |r.pcs| && RoleOf(r.pcs[i]).Some?
    requires PcGenuine(o, KeyOf(r, i), r.pcs[i]) && L2Genuine(o, l2) && o(KeyOf(r, i), c.answer.version)
    ensures PcGenuine(o, KeyOf(r, i), FetchNext(r, l2, i, c))
  {
  }

  lemma ServerGenuine(o: Origin, r: Replica, i: nat, c: Choice)
    requires Shaped(r) && i < |r.pcs| && Enabled(r, i) && RoleOf(r.pcs[i]).None? && !OnSlot(r.pcs[i])
    requires PcGenuine(o, KeyOf(r, i), r.pcs[i]) && L1Genuine(o, r.l1)
    ensures PcGenuine(o, KeyOf(r, i), ServeNext(r, i, c))
  {
  }

  lemma WaiterGenuine(o: Origin, r: Replica, i: nat, c: Choice)
    requires Shaped(r) && i < |r.pcs| && Enabled(r, i) && OnSlot(r.pcs[i])
    requires WatchedOk(r.pcs[i], KeyOf(r, i), r.reg)
    requires PcGenuine(o, KeyOf(r, i), r.pcs[i]) && SlotsGenuine(o, r.reg)
    ensures PcGenuine(o, KeyOf(r, i), SlotNext(r, i, c))
  {
  }

  lemma NextGenuine(o: Origin, r: Replica, l2: L2, i: nat, c: Choice)
    requires Inv(r) && i < |r.pcs| && Enabled(r, i) && AllGenuine(o, r, l2)
    requires o(KeyOf(r, i), c.answer.version)
    ensures PcGenuine(o, KeyOf(r, i), NextPc(r, l2, i, c))
  {
    assert ThreadOk(r, i) && PcGenuine(o, KeyOf(r, i), r.pcs[i]);
    if RoleOf(r.pcs[i]).Some? {
      FetcherGenuine(o, r, l2, i, c);
    } else if OnSlot(r.pcs[i]) {
      WaiterGenuine(o, r, i, c);
    } else {
      ServerGenuine(o, r, i, c);
    }
  }

  lemma SlotsAfter(o: Origin, r: Replica, i: nat)
    requires Inv(r) && i < |r.pcs| && Enabled(r, i) && SlotsGenuine(o, r.reg)
    requires PcGenuine(o, KeyOf(r, i), r.pcs[i])
    ensures SlotsGenuine(o, RegAfter(r, i))
  {
    assert ThreadOk(r, i);
  }

  lemma StoresAfter(o: Origin, r: Replica, l2: L2, i: nat, c: Choice)
    requires Shaped(r) && i < |r.pcs| && Enabled(r, i)
    requires PcGenuine(o, KeyOf(r, i), r.pcs[i]) && L1Genuine(o, r.l1) && L2Genuine(o, l2)
    ensures L1Genuine(o, L1After(r, i, c)) && L2Genuine(o, L2After(r, l2, i, c))
  {
  }

  lemma StepGenuine(o: Origin, r: Replica, l2: L2, i: nat, c: Choice)
    requires Inv(r) && i < |r.pcs| && Enabled(r, i) && AllGenuine(o, r, l2)
    requires o(KeyOf(r, i), c.answer.version)
    ensures AllGenuine(o, Step(r, l2, i, c), L2After(r, l2, i, c))
  {
    assert PcGenuine(o, KeyOf(r, i), r.pcs[i]);
    NextGenuine(o, r, l2, i, c);
    SlotsAfter(o, r, i);
    StoresAfter(o, r, l2, i, c);
    var r' := Step(r, l2, i, c);
    forall j: nat | j < |r'.pcs| ensures PcGenuine(o, KeyOf(r', j), r'.pcs[j]) {
      assert PcGenuine(o, KeyOf(r, j), r.pcs[j]) && KeyOf(r', j) == KeyOf(r, j);
    }
  }

  lemma ApplyGenuine(o: Origin, r: Replica, l2: L2, e: Event)
    requires Inv(r) && AllGenuine(o, r, l2) && HonestEvent(o, r, e)
    ensures AllGenuine(o, Apply(r, l2, e), ApplyL2(r, l2, e))
  {
    if e.Act? && e.thread < |r.pcs| && Enabled(r, e.thread) {
      StepGenuine(o, r, l2, e.thread, e.choice);
    } else if e.Drop? {
      var r' := Apply(r, l2, e);
      forall j: nat | j < |r'.pcs| ensures PcGenuine(o, KeyOf(r', j), r'.pcs[j]) {
        assert PcGenuine(o, KeyOf(r, j), r.pcs[j]);
      }
    }
  }

  ghost predicate AllHonest(o: Origin, r: Replica, events: seq<Event>)
    requires Shaped(r)
  {
    forall i :: 0 <= i < |events| ==> HonestEvent(o, r, events[i])
  }

  // Which events are honest depends on the requests only, and a step leaves them as they are.
  lemma RestHonest(o: Origin, r: Replica, l2: L2, events: seq<Event>)
    requires Shaped(r) && events != [] && AllHonest(o, r, events)
    ensures HonestEvent(o, r, events[0]) && AllHonest(o, Apply(r, l2, events[0]), events[1..])
  {
    var r1 := Apply(r, l2, events[0]);
    assert r1.reqs == r.reqs && |r1.pcs| == |r.pcs|;
    forall i | 0 <= i < |events[1..]| ensures HonestEvent(o, r1, events[1..][i]) {
      assert HonestEvent(o, r, events[i + 1]);
    }
  }

  lemma {:induction false} RunGenuine(o: Origin, r: Replica, l2: L2, events: seq<Event>)
    requires Inv(r) && AllGenuine(o, r, l2) && AllHonest(o, r, events)
    ensures ThreadsGenuine(o, Run(r, l2, events)) && L1Genuine(o, Run(r, l2, events).l1)
    decreases |events|
  {
    if events != [] {
      RestHonest(o, r, l2, events);
      ApplyGenuine(o, r, l2, events[0]);
      ApplyInv(r, l2, events[0]);
      RunGenuine(o, Apply(r, l2, events[0]), ApplyL2(r, l2, events[0]), events[1..]);
    }
  }

  // If the origin and the rest of the fleet only ever give content for a key that belongs to it, every request is
  // answered with content that belongs to its key, or with a body the proxy made itself.
  lemma ServedContentBelongsToKey(o: Origin, reqs: seq<Request>, hasL2: bool, cfg: Config, l2: L2,
                                  events: seq<Event>, i: nat)
    requires i < |reqs| && L2Genuine(o, l2) && AllHonest(o, Initial(reqs, hasL2, cfg), events)
    ensures var r := Run(Initial(reqs, hasL2, cfg), l2, events);
            |reqs| <= |r.pcs| && (r.pcs[i].Done? ==> Genuine(o, reqs[i].key, r.pcs[i].resp))
  {
    var r0 := Initial(reqs, hasL2, cfg);
    InitialInv(reqs, hasL2, cfg);
    RunGenuine(o, r0, l2, events);
    var r := Run(r0, l2, events);
    assert PcGenuine(o, KeyOf(r, i), r.pcs[i]);
  }
}
