// Single flight: who owns which slot, in every reachable state of a replica.
module SingleFlight {
  import opened Wrappers
  import opened CacheEntries
  import opened CircuitBreakers
  import opened InFlight
  import opened RequestMachine

  // The slot the thread has acquired as leader and not yet taken out of the map.
  function OwnSlot(pc: Pc): Option<nat> {
    match RoleOf(pc)
    case Some(Leading(own, _, _)) => Some(own)
    case Some(Revalidating(own)) => Some(own)
    case _ => None
  }

  // The slot the thread has taken out of the map and is about to make ready.
  function Publishing(pc: Pc): Option<nat> {
    if pc.MakeReady? then Some(pc.slot) else None
  }

  // The slot whose result the thread waits for, or has taken.
  function Watched(pc: Pc): Option<nat> {
    match pc
    case Wait(slot) => Some(slot)
    case ReadResponse(slot) => Some(slot)
    case ReadFlag(slot, _) => Some(slot)
    case PutShared(slot, _, _) => Some(slot)
    case Done(_, Joined(slot)) => Some(slot)
    case _ => None
  }

  // The cached entry a missing thread still carries, with the time at which it looked.
  function Carried(pc: Pc): Option<(Entry, int)> {
    match pc
    case CountMiss(Some(e), now) => Some((e, now))
    case Acquire(Some(e), now) => Some((e, now))
    case _ =>
      match RoleOf(pc)
      case Some(Leading(_, Some(e), now)) => Some((e, now))
      case _ => None
  }

  predicate BeforeTrigger(pc: Pc) {
    pc.Start? || pc.Lookup? || pc.CountHit? || pc.CountStaleHit? || pc.CountStale? || pc.Trigger?
  }

  // PASS traffic never touches L2, the stores or the registry, and only a leader looks into L2.
  predicate RoleFits(pc: Pc) {
    match pc
    case ReadL2(role) => role.Leading?
    case CountL2Hit(role, _) => role.Leading?
    case Promote(role, _) => role.Leading?
    case CountL2Miss(role) => role.Leading?
    case PutL1(role, _, _) => !role.Passing?
    case PutL2(role, _, _) => !role.Passing?
    case Erase(role, _, _) => !role.Passing?
    case _ => true
  }

  // A program counter that thread i can have, given whether i serves a request.
  predicate Typed(pc: Pc, serving: bool) {
    && RoleFits(pc)
    && if serving then !pc.Idle? && !(RoleOf(pc).Some? && RoleOf(pc).value.Revalidating?)
    else pc.Idle? || pc.MakeReady? || (pc.Done? && pc.how.Published?)
         || (RoleOf(pc).Some? && RoleOf(pc).value.Revalidating?)
  }

  predicate WatchOk(pc: Pc, slot: Slot<Response>) {
    match pc
    case ReadResponse(_) => slot.ready
    case ReadFlag(_, resp) => slot.ready && resp == slot.response
    case PutShared(_, resp, e) => slot.ready && slot.success && resp == slot.response && e.payload == resp
    case Done(resp, Joined(_)) => slot.ready && resp == slot.response.(tag := CoalescedTag)
    case _ => true
  }

  // The slot a thread owns is its own, not ready, and the one in flight for its key.
  predicate OwnOk(own: Option<nat>, i: nat, key: Key, reg: Registry<Response>) {
    own.Some? ==>
      && own.value < |reg.slots| && !reg.slots[own.value].ready
      && reg.slots[own.value].leader == i && reg.slots[own.value].key == key
      && key in reg.inflight && reg.inflight[key] == own.value
  }

  predicate PublishOk(own: Option<nat>, i: nat, key: Key, reg: Registry<Response>) {
    own.Some? ==>
      && own.value < |reg.slots| && !reg.slots[own.value].ready
      && reg.slots[own.value].leader == i && reg.slots[own.value].key == key
  }

  predicate WatchedOk(pc: Pc, key: Key, reg: Registry<Response>) {
    Watched(pc).Some? ==>
      var slot := Watched(pc).value;
      slot < |reg.slots| && reg.slots[slot].key == key && WatchOk(pc, reg.slots[slot])
  }

  predicate PublishedOk(pc: Pc, i: nat, reg: Registry<Response>) {
    pc.Done? ==>
      && !pc.how.Lost?
      && (pc.how.Published? ==>
            pc.how.slot < |reg.slots| && reg.slots[pc.how.slot].leader == i && reg.slots[pc.how.slot].ready)
  }

  predicate CarriedOk(pc: Pc) {
    Carried(pc).Some? ==> !IsServeableStale(Carried(pc).value.0, Carried(pc).value.1)
  }

  predicate PcOk(pc: Pc, i: nat, serving: bool, key: Key, reg: Registry<Response>) {
    && Typed(pc, serving)
    && OwnOk(OwnSlot(pc), i, key, reg)
    && PublishOk(Publishing(pc), i, key, reg)
    && WatchedOk(pc, key, reg)
    && PublishedOk(pc, i, reg)
    && CarriedOk(pc)
  }

  ghost predicate ThreadOk(r: Replica, i: nat)
    requires Shaped(r) && i < |r.pcs|
  {
    && PcOk(r.pcs[i], i, i < |r.reqs|, KeyOf(r, i), r.reg)
    && (i < |r.reqs| && BeforeTrigger(r.pcs[i]) ==> r.pcs[|r.reqs| + i].Idle?)
  }

  ghost predicate SlotOk(r: Replica, s: nat)
    requires Shaped(r) && s < |r.reg.slots|
  {
    var slot := r.reg.slots[s];
    && slot.leader < |r.pcs| && slot.key == KeyOf(r, slot.leader)
    && (if slot.ready then r.pcs[slot.leader] == Done(slot.response, Published(s, slot.success))
        else OwnSlot(r.pcs[slot.leader]) == Some(s) || Publishing(r.pcs[slot.leader]) == Some(s))
  }

  ghost predicate InFlightOk(r: Replica, k: Key)
    requires Shaped(r) && k in r.reg.inflight
  {
    var s := r.reg.inflight[k];
    && s < |r.reg.slots| && r.reg.slots[s].key == k
    && r.reg.slots[s].leader < |r.pcs| && OwnSlot(r.pcs[r.reg.slots[s].leader]) == Some(s)
  }

  ghost predicate ThreadsOk(r: Replica)
    requires Shaped(r)
  {
    forall i: nat :: i < |r.pcs| ==> ThreadOk(r, i)
  }

  ghost predicate SlotsOk(r: Replica)
    requires Shaped(r)
  {
    forall s: nat :: s < |r.reg.slots| ==> SlotOk(r, s)
  }

  ghost predicate MapOk(r: Replica)
    requires Shaped(r)
  {
    forall k :: k in r.reg.inflight ==> InFlightOk(r, k)
  }

  ghost predicate Inv(r: Replica) {
    Shaped(r) && ThreadsOk(r) && SlotsOk(r) && MapOk(r)
  }

  lemma InitialInv(reqs: seq<Request>, hasL2: bool, cfg: Config)
    ensures Inv(Initial(reqs, hasL2, cfg))
  {
  }

  // A step away from the registry keeps what the thread holds, so the whole invariant is kept.
  lemma LocalStep(r: Replica, r': Replica, i: nat)
    requires Inv(r) && i < |r.pcs| && !r.pcs[i].Done? && !r.pcs[i].Idle?
    requires r'.reqs == r.reqs && r'.reg == r.reg && |r'.pcs| == |r.pcs| && r'.pcs == r.pcs[i := r'.pcs[i]]
    requires OwnSlot(r'.pcs[i]) == OwnSlot(r.pcs[i])
    requires Publishing(r'.pcs[i]) == Publishing(r.pcs[i])
    requires BeforeTrigger(r'.pcs[i]) ==> BeforeTrigger(r.pcs[i])
    requires PcOk(r'.pcs[i], i, i < |r.reqs|, KeyOf(r, i), r.reg)
    ensures Inv(r')
  {
    forall j: nat | j < |r'.pcs| ensures ThreadOk(r', j) {
      assert ThreadOk(r, j);
    }
    HandOver(r, r', i);
    forall k | k in r'.reg.inflight ensures InFlightOk(r', k) {
      assert InFlightOk(r, k);
    }
  }

  // acquire changes nothing for the threads that do not call it.
  lemma AcquiredPc(pc: Pc, j: nat, serving: bool, key: Key, reg: Registry<Response>, key': Key, caller: nat)
    requires PcOk(pc, j, serving, key, reg)
    ensures PcOk(pc, j, serving, key, Acquired(reg, key', caller, BLANK))
  {
  }

  // A thread that joins the slot in flight for its key.
  lemma JoinStep(r: Replica, r': Replica, i: nat)
    requires Inv(r) && i < |r.pcs| && !r.pcs[i].Done? && KeyOf(r, i) in r.reg.inflight
    requires r'.reqs == r.reqs && r'.reg == r.reg.(coalesced := r.reg.coalesced + 1)
    requires |r'.pcs| == |r.pcs| && r'.pcs == r.pcs[i := r'.pcs[i]]
    requires OwnSlot(r'.pcs[i]) == OwnSlot(r.pcs[i]) == Publishing(r'.pcs[i]) == Publishing(r.pcs[i]) == None
    requires !r.pcs[i].Idle? && !BeforeTrigger(r'.pcs[i])
    requires PcOk(r'.pcs[i], i, i < |r.reqs|, KeyOf(r, i), r'.reg)
    ensures Inv(r')
  {
    forall j: nat | j < |r'.pcs| ensures ThreadOk(r', j) {
      assert ThreadOk(r, j);
      if j != i {
        AcquiredPc(r.pcs[j], j, j < |r.reqs|, KeyOf(r, j), r.reg, KeyOf(r, i), i);
      }
    }
    HandOver(r, r', i);
    forall k | k in r'.reg.inflight ensures InFlightOk(r', k) {
      assert InFlightOk(r, k);
    }
  }

  // A new slot, for the thread that acquired it or for the revalidation thread it starts.
  ghost predicate Leads(r: Replica, r': Replica, i: nat, worker: nat)
    requires Shaped(r)
  {
    && i < |r.reqs| && (worker == i || worker == |r.reqs| + i)
    && KeyOf(r, i) !in r.reg.inflight
    && r'.reqs == r.reqs && r'.reg == Acquired(r.reg, KeyOf(r, i), worker, BLANK)
    && |r'.pcs| == |r.pcs| && r'.pcs == r.pcs[i := r'.pcs[i]][worker := r'.pcs[worker]]
    && OwnSlot(r.pcs[i]) == Publishing(r.pcs[i]) == OwnSlot(r.pcs[worker]) == Publishing(r.pcs[worker]) == None
    && !r.pcs[i].Done? && !r.pcs[worker].Done?
    && OwnSlot(r'.pcs[worker]) == Some(|r.reg.slots|) && !BeforeTrigger(r'.pcs[i])
    && PcOk(r'.pcs[i], i, true, KeyOf(r, i), r'.reg)
    && PcOk(r'.pcs[worker], worker, worker < |r.reqs|, KeyOf(r, i), r'.reg)
  }

  lemma LeadThreads(r: Replica, r': Replica, i: nat, worker: nat)
    requires Inv(r) && Leads(r, r', i, worker)
    ensures ThreadsOk(r')
  {
    forall j: nat | j < |r'.pcs| ensures ThreadOk(r', j) {
      assert ThreadOk(r, j);
      if j != i && j != worker {
        AcquiredPc(r.pcs[j], j, j < |r.reqs|, KeyOf(r, j), r.reg, KeyOf(r, i), worker);
      }
    }
  }

  lemma LeadStep(r: Replica, r': Replica, i: nat, worker: nat)
    requires Inv(r) && Leads(r, r', i, worker)
    ensures Inv(r')
  {
    LeadThreads(r, r', i, worker);
    forall s: nat | s < |r'.reg.slots| ensures SlotOk(r', s) {
      if s < |r.reg.slots| {
        assert SlotOk(r, s);
      }
    }
    forall k | k in r'.reg.inflight ensures InFlightOk(r', k) {
      if k != KeyOf(r, i) {
        assert InFlightOk(r, k);
      }
    }
  }

  // Taking the slot of one thread out of the map leaves every other thread's hold intact.
  lemma ErasedPc(pc: Pc, j: nat, serving: bool, key: Key, reg: Registry<Response>, own: nat, i: nat, key': Key)
    requires PcOk(pc, j, serving, key, reg)
    requires OwnOk(Some(own), i, key', reg) && i != j
    ensures PcOk(pc, j, serving, key, Erased(reg, key'))
  {
    if OwnSlot(pc).Some? {
      assert key != key';
    }
  }

  lemma EraseStep(r: Replica, r': Replica, i: nat)
    requires Inv(r) && i < |r.pcs| && r.pcs[i].Erase? && KeyOf(r, i) in r.reg.inflight
    requires r'.reqs == r.reqs && r'.reg == Erased(r.reg, KeyOf(r, i))
    requires r'.pcs == r.pcs[i := MakeReady(r.reg.inflight[KeyOf(r, i)], r.pcs[i].resp, r.pcs[i].success)]
    ensures Inv(r')
  {
    assert ThreadOk(r, i);
    var own := r.reg.inflight[KeyOf(r, i)];
    assert OwnSlot(r.pcs[i]) == Some(own) && Publishing(r'.pcs[i]) == Some(own);
    assert PcOk(r'.pcs[i], i, i < |r.reqs|, KeyOf(r, i), r'.reg);
    EraseThreads(r, r', i);
    HandOver(r, r', i);
    forall k | k in r'.reg.inflight ensures InFlightOk(r', k) {
      assert InFlightOk(r, k);
    }
  }

  lemma EraseThreads(r: Replica, r': Replica, i: nat)
    requires Inv(r) && i < |r.pcs| && OwnOk(OwnSlot(r.pcs[i]), i, KeyOf(r, i), r.reg) && OwnSlot(r.pcs[i]).Some?
    requires r'.reqs == r.reqs && r'.reg == Erased(r.reg, KeyOf(r, i))
    requires |r'.pcs| == |r.pcs| && r'.pcs == r.pcs[i := r'.pcs[i]] && !BeforeTrigger(r'.pcs[i])
    requires !r.pcs[i].Idle? && PcOk(r'.pcs[i], i, i < |r.reqs|, KeyOf(r, i), r'.reg)
    ensures ThreadsOk(r')
  {
    forall j: nat | j < |r'.pcs| ensures ThreadOk(r', j) {
      assert ThreadOk(r, j);
      if j != i {
        ErasedPc(r.pcs[j], j, j < |r.reqs|, KeyOf(r, j), r.reg, OwnSlot(r.pcs[i]).value, i, KeyOf(r, i));
      }
    }
  }

  // The slots are the same, and the thread that moved still holds its own in one way or the other.
  lemma HandOver(r: Replica, r': Replica, i: nat)
    requires Inv(r) && i < |r.pcs| && !r.pcs[i].Done?
    requires r'.reqs == r.reqs && r'.reg.slots == r.reg.slots
    requires |r'.pcs| == |r.pcs| && r'.pcs == r.pcs[i := r'.pcs[i]]
    requires OwnSlot(r.pcs[i]) == OwnSlot(r'.pcs[i]) || OwnSlot(r.pcs[i]) == Publishing(r'.pcs[i])
    requires Publishing(r.pcs[i]) == Publishing(r'.pcs[i]) || Publishing(r.pcs[i]) == None
    ensures SlotsOk(r')
  {
    forall s: nat | s < |r'.reg.slots| ensures SlotOk(r', s) {
      assert SlotOk(r, s);
    }
  }

  // Filling the slot of one thread: no other thread holds it, and those that have read a slot read another.
  lemma ReadyPc(pc: Pc, j: nat, serving: bool, key: Key, reg: Registry<Response>, own: nat, i: nat, key': Key,
                resp: Response, success: bool)
    requires PcOk(pc, j, serving, key, reg)
    requires PublishOk(Some(own), i, key', reg) && i != j
    ensures PcOk(pc, j, serving, key, MadeReady(reg, own, resp, success))
  {
  }

  lemma ReadyStep(r: Replica, r': Replica, i: nat)
    requires Inv(r) && i < |r.pcs| && r.pcs[i].MakeReady? && r.pcs[i].slot < |r.reg.slots|
    requires r'.reqs == r.reqs && r'.reg == MadeReady(r.reg, r.pcs[i].slot, r.pcs[i].resp, r.pcs[i].success)
    requires r'.pcs == r.pcs[i := Done(r.pcs[i].resp, Published(r.pcs[i].slot, r.pcs[i].success))]
    ensures Inv(r')
  {
    assert ThreadOk(r, i);
    ReadyThreads(r, r', i);
    forall s: nat | s < |r'.reg.slots| ensures SlotOk(r', s) {
      assert SlotOk(r, s);
    }
    forall k | k in r'.reg.inflight ensures InFlightOk(r', k) {
      assert InFlightOk(r, k);
    }
  }

  lemma ReadyThreads(r: Replica, r': Replica, i: nat)
    requires Inv(r) && i < |r.pcs| && r.pcs[i].MakeReady? && r.pcs[i].slot < |r.reg.slots|
    requires r'.reqs == r.reqs && r'.reg == MadeReady(r.reg, r.pcs[i].slot, r.pcs[i].resp, r.pcs[i].success)
    requires r'.pcs == r.pcs[i := Done(r.pcs[i].resp, Published(r.pcs[i].slot, r.pcs[i].success))]
    ensures ThreadsOk(r')
  {
    assert ThreadOk(r, i);
    forall j: nat | j < |r'.pcs| ensures ThreadOk(r', j) {
      assert ThreadOk(r, j);
      if j != i {
        ReadyPc(r.pcs[j], j, j < |r.reqs|, KeyOf(r, j), r.reg, r.pcs[i].slot, i, KeyOf(r, i),
                r.pcs[i].resp, r.pcs[i].success);
      }
    }
  }

  // The program counters at which a thread uses the registry.
  predicate AtRegistry(pc: Pc) {
    pc.Acquire? || pc.Trigger? || pc.Erase? || pc.MakeReady?
  }

  predicate KeepsHold(before: Pc, after: Pc) {
    && OwnSlot(after) == OwnSlot(before) && Publishing(after) == Publishing(before)
    && (BeforeTrigger(after) ==> BeforeTrigger(before))
    && !before.Idle? && !before.Done?
  }

  lemma ServeKeepsHold(r: Replica, i: nat, c: Choice)
    requires Shaped(r) && i < |r.pcs| && Enabled(r, i)
    requires PcOk(r.pcs[i], i, i < |r.reqs|, KeyOf(r, i), r.reg)
    requires RoleOf(r.pcs[i]).None? && !OnSlot(r.pcs[i]) && !AtRegistry(r.pcs[i])
    ensures KeepsHold(r.pcs[i], ServeNext(r, i, c))
    ensures PcOk(ServeNext(r, i, c), i, i < |r.reqs|, KeyOf(r, i), r.reg)
  {
  }

  lemma FetchKeepsHold(r: Replica, l2: L2, i: nat, c: Choice)
    requires Shaped(r) && i < |r.pcs|
    requires PcOk(r.pcs[i], i, i < |r.reqs|, KeyOf(r, i), r.reg)
    requires RoleOf(r.pcs[i]).Some? && !AtRegistry(r.pcs[i])
    ensures KeepsHold(r.pcs[i], FetchNext(r, l2, i, c))
  {
  }

  lemma FetchStaysOk(r: Replica, l2: L2, i: nat, c: Choice)
    requires Shaped(r) && i < |r.pcs|
    requires PcOk(r.pcs[i], i, i < |r.reqs|, KeyOf(r, i), r.reg)
    requires RoleOf(r.pcs[i]).Some? && !AtRegistry(r.pcs[i])
    ensures PcOk(FetchNext(r, l2, i, c), i, i < |r.reqs|, KeyOf(r, i), r.reg)
  {
  }

  lemma SlotKeepsHold(r: Replica, i: nat, c: Choice)
    requires Shaped(r) && i < |r.pcs| && Enabled(r, i)
    requires PcOk(r.pcs[i], i, i < |r.reqs|, KeyOf(r, i), r.reg)
    requires OnSlot(r.pcs[i]) && !AtRegistry(r.pcs[i])
    ensures KeepsHold(r.pcs[i], SlotNext(r, i, c))
    ensures PcOk(SlotNext(r, i, c), i, i < |r.reqs|, KeyOf(r, i), r.reg)
  {
  }

  lemma LocalStepInv(r: Replica, l2: L2, i: nat, c: Choice)
    requires Inv(r) && i < |r.pcs| && Enabled(r, i) && !AtRegistry(r.pcs[i])
    ensures Inv(Step(r, l2, i, c))
  {
    assert ThreadOk(r, i);
    if RoleOf(r.pcs[i]).Some? {
      FetchKeepsHold(r, l2, i, c);
      FetchStaysOk(r, l2, i, c);
    } else if OnSlot(r.pcs[i]) {
      SlotKeepsHold(r, i, c);
    } else {
      ServeKeepsHold(r, i, c);
    }
    LocalStep(r, Step(r, l2, i, c), i);
  }

  // What a caller of acquire has afterwards.
  lemma CallerPc(r: Replica, i: nat, c: Choice)
    requires Shaped(r) && i < |r.pcs| && Enabled(r, i) && (r.pcs[i].Acquire? || r.pcs[i].Trigger?)
    requires PcOk(r.pcs[i], i, i < |r.reqs|, KeyOf(r, i), r.reg)
    requires KeyOf(r, i) in r.reg.inflight ==> InFlightOk(r, KeyOf(r, i))
    ensures i < |r.reqs|
    ensures PcOk(ServeNext(r, i, c), i, true, KeyOf(r, i), RegAfter(r, i))
    ensures Spawns(r, i) ==>
              var key := KeyOf(r, i);
              PcOk(AskBreaker(Revalidating(SlotFor(r.reg, key))), |r.reqs| + i, false, key, RegAfter(r, i))
  {
  }

  lemma AcquireStepInv(r: Replica, l2: L2, i: nat, c: Choice)
    requires Inv(r) && i < |r.pcs| && r.pcs[i].Acquire?
    ensures Inv(Step(r, l2, i, c))
  {
    if KeyOf(r, i) in r.reg.inflight {
      AcquireJoins(r, l2, i, c);
    } else {
      AcquireLeads(r, l2, i, c);
    }
  }

  lemma AcquireJoins(r: Replica, l2: L2, i: nat, c: Choice)
    requires Inv(r) && i < |r.pcs| && r.pcs[i].Acquire? && KeyOf(r, i) in r.reg.inflight
    ensures Inv(Step(r, l2, i, c))
  {
    assert ThreadOk(r, i);
    CallerPc(r, i, c);
    JoinStep(r, Step(r, l2, i, c), i);
  }

  lemma AcquireLeads(r: Replica, l2: L2, i: nat, c: Choice)
    requires Inv(r) && i < |r.pcs| && r.pcs[i].Acquire? && KeyOf(r, i) !in r.reg.inflight
    ensures Inv(Step(r, l2, i, c))
  {
    assert ThreadOk(r, i);
    CallerPc(r, i, c);
    LeadStep(r, Step(r, l2, i, c), i, i);
  }

  lemma TriggerStepInv(r: Replica, l2: L2, i: nat, c: Choice)
    requires Inv(r) && i < |r.pcs| && r.pcs[i].Trigger?
    ensures Inv(Step(r, l2, i, c))
  {
    if KeyOf(r, i) in r.reg.inflight {
      TriggerJoins(r, l2, i, c);
    } else {
      TriggerLeads(r, l2, i, c);
    }
  }

  lemma TriggerJoins(r: Replica, l2: L2, i: nat, c: Choice)
    requires Inv(r) && i < |r.pcs| && r.pcs[i].Trigger? && KeyOf(r, i) in r.reg.inflight
    ensures Inv(Step(r, l2, i, c))
  {
    assert ThreadOk(r, i);
    CallerPc(r, i, c);
    JoinStep(r, Step(r, l2, i, c), i);
  }

  lemma TriggerLeads(r: Replica, l2: L2, i: nat, c: Choice)
    requires Inv(r) && i < |r.pcs| && r.pcs[i].Trigger? && KeyOf(r, i) !in r.reg.inflight
    ensures Inv(Step(r, l2, i, c))
  {
    assert ThreadOk(r, i);
    CallerPc(r, i, c);
    LeadStep(r, Step(r, l2, i, c), i, |r.reqs| + i);
  }

  lemma StepInv(r: Replica, l2: L2, i: nat, c: Choice)
    requires Inv(r) && i < |r.pcs| && Enabled(r, i)
    ensures Inv(Step(r, l2, i, c))
  {
    assert ThreadOk(r, i);
    if !AtRegistry(r.pcs[i]) {
      LocalStepInv(r, l2, i, c);
    } else if r.pcs[i].Erase? {
      EraseStep(r, Step(r, l2, i, c), i);
    } else if r.pcs[i].MakeReady? {
      ReadyStep(r, Step(r, l2, i, c), i);
    } else if r.pcs[i].Acquire? {
      AcquireStepInv(r, l2, i, c);
    } else {
      TriggerStepInv(r, l2, i, c);
    }
  }

  lemma ApplyInv(r: Replica, l2: L2, e: Event)
    requires Inv(r)
    ensures Inv(Apply(r, l2, e))
  {
    match e
    case Act(i, c) =>
      if i < |r.pcs| && Enabled(r, i) {
        StepInv(r, l2, i, c);
      }
    case Drop(keys) =>
      var r' := Apply(r, l2, e);
      assert forall i: nat :: i < |r.pcs| && ThreadOk(r, i) ==> ThreadOk(r', i);
      assert forall s: nat :: s < |r.reg.slots| && SlotOk(r, s) ==> SlotOk(r', s);
      assert forall k :: k in r.reg.inflight && InFlightOk(r, k) ==> InFlightOk(r', k);
    case Elsewhere(_) =>
  }

  lemma {:induction false} RunInv(r: Replica, l2: L2, events: seq<Event>)
    requires Inv(r)
    ensures Inv(Run(r, l2, events))
    decreases |events|
  {
    if events != [] {
      ApplyInv(r, l2, events[0]);
      RunInv(Apply(r, l2, events[0]), ApplyL2(r, l2, events[0]), events[1..]);
    }
  }

  // ---------------------------------------------------------------------------------------------
  // What follows for every reachable state.

  ghost predicate Reachable(r: Replica) {
    exists reqs, hasL2, cfg, l2: L2, events :: r == Run(Initial(reqs, hasL2, cfg), l2, events)
  }

  lemma ReachableInv(r: Replica)
    requires Reachable(r)
    ensures Inv(r)
  {
    var reqs, hasL2, cfg, l2: L2, events :| r == Run(Initial(reqs, hasL2, cfg), l2, events);
    InitialInv(reqs, hasL2, cfg);
    RunInv(Initial(reqs, hasL2, cfg), l2, events);
  }

  ghost predicate Owns(r: Replica, i: nat, k: Key)
    requires Shaped(r)
  {
    i < |r.pcs| && KeyOf(r, i) == k && OwnSlot(r.pcs[i]).Some?
  }

  // A key is in flight exactly when some thread owns it, only one does, and the slot in the map is the
  // one that thread acquired.
  lemma OneOwnerPerKey(r: Replica, k: Key)
    requires Reachable(r)
    ensures Shaped(r)
    ensures k in r.reg.inflight <==> exists i: nat :: Owns(r, i, k)
    ensures forall i: nat, j: nat :: Owns(r, i, k) && Owns(r, j, k) ==> i == j
    ensures forall i: nat :: Owns(r, i, k) ==> OwnSlot(r.pcs[i]) == Some(r.reg.inflight[k])
  {
    ReachableInv(r);
    forall i: nat | Owns(r, i, k)
      ensures k in r.reg.inflight && OwnSlot(r.pcs[i]) == Some(r.reg.inflight[k])
      ensures r.reg.inflight[k] < |r.reg.slots| && r.reg.slots[r.reg.inflight[k]].leader == i
    {
      assert ThreadOk(r, i);
    }
    if k in r.reg.inflight {
      assert InFlightOk(r, k);
      var s := r.reg.inflight[k];
      assert SlotOk(r, s);
      assert Owns(r, r.reg.slots[s].leader, k);
    }
  }

  // publish always finds a slot, its own; the silent return for a missing key never happens.
  lemma PublishFindsOwnSlot(r: Replica, i: nat, l2: L2, c: Choice)
    requires Reachable(r) && i < |r.pcs| && r.pcs[i].Erase?
    ensures Shaped(r) && OwnSlot(r.pcs[i]).Some?
    ensures NextPc(r, l2, i, c) == MakeReady(OwnSlot(r.pcs[i]).value, r.pcs[i].resp, r.pcs[i].success)
  {
    ReachableInv(r);
    assert ThreadOk(r, i);
  }

  // A coalesced origin fetch in progress: from the breaker's admission to the recorded result.
  predicate CoalescedFetch(pc: Pc) {
    (pc.Fetch? || pc.Observe? || pc.TellBreaker?) && !pc.role.Passing?
  }

  lemma OneFetchPerKey(r: Replica, i: nat, j: nat)
    requires Reachable(r) && i < |r.pcs| && j < |r.pcs|
    requires CoalescedFetch(r.pcs[i]) && CoalescedFetch(r.pcs[j])
    ensures Shaped(r)
    ensures KeyOf(r, i) == KeyOf(r, j) ==> i == j
  {
    ReachableInv(r);
    assert ThreadOk(r, i) && ThreadOk(r, j);
  }

  // A slot is made ready at most once: the thread about to do it is the slot's leader, the slot is not
  // ready, and nobody else is about to.
  lemma OnePublisherPerSlot(r: Replica, i: nat, j: nat)
    requires Reachable(r) && i < |r.pcs| && j < |r.pcs|
    requires r.pcs[i].MakeReady?
    ensures r.pcs[i].slot < |r.reg.slots| && !r.reg.slots[r.pcs[i].slot].ready
    ensures r.pcs[j].MakeReady? && r.pcs[j].slot == r.pcs[i].slot ==> i == j
  {
    ReachableInv(r);
    assert ThreadOk(r, i) && ThreadOk(r, j);
  }

  lemma ApplyKeepsReady(r: Replica, l2: L2, e: Event, s: nat)
    requires Inv(r) && s < |r.reg.slots| && r.reg.slots[s].ready
    ensures var reg := Apply(r, l2, e).reg; s < |reg.slots| && reg.slots[s] == r.reg.slots[s]
  {
    if e.Act? && e.thread < |r.pcs| && r.pcs[e.thread].MakeReady? {
      assert ThreadOk(r, e.thread);
    }
  }

  // ... and its content never changes again, in any continuation.
  lemma {:induction false} ReadySlotIsFinal(r: Replica, l2: L2, events: seq<Event>, s: nat)
    requires Inv(r) && s < |r.reg.slots| && r.reg.slots[s].ready
    ensures var r' := Run(r, l2, events);
            s < |r'.reg.slots| && r'.reg.slots[s] == r.reg.slots[s]
    decreases |events|
  {
    if events != [] {
      var e := events[0];
      ApplyInv(r, l2, e);
      ApplyKeepsReady(r, l2, e, s);
      ReadySlotIsFinal(Apply(r, l2, e), ApplyL2(r, l2, e), events[1..], s);
    }
  }

  // A coalesced request answers with exactly what the leader of its key published and returned, with
  // its own decoration; and it stores a copy only if the leader succeeded.
  lemma WaiterGetsLeadersResponse(r: Replica, i: nat)
    requires Reachable(r) && i < |r.pcs|
    ensures Shaped(r)
    ensures r.pcs[i].Done? && r.pcs[i].how.Joined? ==>
              var s := r.pcs[i].how.slot;
              s < |r.reg.slots| &&
              var leader := r.reg.slots[s].leader;
              && leader < |r.pcs| && KeyOf(r, leader) == KeyOf(r, i)
              && r.pcs[leader].Done? && r.pcs[leader].how == Published(s, r.reg.slots[s].success)
              && r.pcs[i].resp == r.pcs[leader].resp.(tag := CoalescedTag)
    ensures r.pcs[i].PutShared? ==>
              var s := r.pcs[i].slot;
              s < |r.reg.slots| &&
              var leader := r.reg.slots[s].leader;
              && leader < |r.pcs| && r.pcs[leader].Done? && r.pcs[leader].how == Published(s, true)
              && r.pcs[i].entry.payload == r.pcs[leader].resp
  {
    ReachableInv(r);
    assert ThreadOk(r, i);
    if Watched(r.pcs[i]).Some? {
      assert SlotOk(r, Watched(r.pcs[i]).value);
    }
  }

  // The branch that would serve a stale copy when the origin is down is dead: it repeats, with the same
  // time stamp, a test that has already failed.
  lemma OriginDownBranchIsDead(r: Replica, i: nat)
    requires Reachable(r) && i < |r.pcs|
    ensures match r.pcs[i]
            case Fail(Leading(_, cached, now), _) => !FallsBack(cached, now)
            case _ => true
  {
    ReachableInv(r);
    assert ThreadOk(r, i);
  }
}
