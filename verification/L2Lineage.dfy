// Which L1 entries come from the shared tier, and for how long they are used. A trace follows every object read from
// L2 through threads, slots and L1; the machine itself does not know it. An entry is either the promoted object, within
// the object's own window, or a copy that a coalesced request has stored, and its decoration tells which.
module L2Lineage {
  import opened Wrappers
  import opened CacheEntries
  import opened CircuitBreakers
  import opened InFlight
  import opened L2Freshness
  import opened RequestMachine
  import opened SingleFlight
  import opened L2Origins

  datatype Source = FromOrigin | FromL2(object_: Stored<Response>)

  datatype Trace = Trace(threads: seq<Source>, slots: seq<Source>, l1: map<Key, Source>)

  predicate Traced(r: Replica, t: Trace) {
    |t.threads| == |r.pcs| && |t.slots| == |r.reg.slots| && t.l1.Keys == r.l1.Keys
  }

  function InitialTrace(r: Replica): Trace {
    Trace(seq(|r.pcs|, _ => FromOrigin), [], map[])
  }

  // A thread that finds an object in L2 has it, and a waiter has what its slot has,
  function ThreadsFrom(r: Replica, l2: L2, i: nat, c: Choice, t: Trace): (threads: seq<Source>)
    requires Shaped(r) && Traced(r, t) && i < |r.pcs| && Enabled(r, i)
    ensures |threads| == |t.threads|
  {
    match r.pcs[i]
    case ReadL2(_) =>
      if ReadTier2(r, l2, KeyOf(r, i), c).Some? then t.threads[i := FromL2(l2[KeyOf(r, i)])] else t.threads
    case ReadResponse(slot) => t.threads[i := t.slots[slot]]
    case _ => t.threads
  }

  // a slot has what its publisher has,
  function SlotsFrom(r: Replica, i: nat, t: Trace): (slots: seq<Source>)
    requires Shaped(r) && Traced(r, t) && i < |r.pcs| && Enabled(r, i)
    ensures |slots| == |RegAfter(r, i).slots|
  {
    match r.pcs[i]
    case Acquire(_, _) => if KeyOf(r, i) in r.reg.inflight then t.slots else t.slots + [FromOrigin]
    case Trigger(_) => if KeyOf(r, i) in r.reg.inflight then t.slots else t.slots + [FromOrigin]
    case MakeReady(slot, _, _) => t.slots[slot := t.threads[i]]
    case _ => t.slots
  }

  // and an L1 entry has what the thread has that stores it.
  function StoredFrom(r: Replica, i: nat, c: Choice, t: Trace): (l1: map<Key, Source>)
    requires Shaped(r) && Traced(r, t) && i < |r.pcs|
    ensures l1.Keys == L1After(r, i, c).Keys
  {
    if r.pcs[i].Promote? || r.pcs[i].PutL1? || r.pcs[i].PutShared? then
      map k | k in L1After(r, i, c) ::
        if k == KeyOf(r, i) then t.threads[i] else if k in t.l1 then t.l1[k] else FromOrigin
    else t.l1
  }

  function TraceAfter(r: Replica, l2: L2, i: nat, c: Choice, t: Trace): (t': Trace)
    requires Shaped(r) && Traced(r, t) && i < |r.pcs| && Enabled(r, i)
    ensures Traced(Step(r, l2, i, c), t')
  {
    Trace(ThreadsFrom(r, l2, i, c, t), SlotsFrom(r, i, t), StoredFrom(r, i, c, t))
  }

  function ApplyTrace(r: Replica, l2: L2, e: Event, t: Trace): (t': Trace)
    requires Shaped(r) && Traced(r, t)
    ensures Traced(Apply(r, l2, e), t')
  {
    match e
    case Act(i, c) => if i < |r.pcs| && Enabled(r, i) then TraceAfter(r, l2, i, c, t) else t
    case Drop(keys) => t.(l1 := t.l1 - keys)
    case Elsewhere(_) => t
  }

  function RunTrace(r: Replica, l2: L2, events: seq<Event>, t: Trace): (t': Trace)
    requires Shaped(r) && Traced(r, t)
    ensures Traced(Run(r, l2, events), t')
    decreases |events|
  {
    if events == [] then t
    else RunTrace(Apply(r, l2, events[0]), ApplyL2(r, l2, events[0]), events[1..], ApplyTrace(r, l2, events[0], t))
  }

  // ---------------------------------------------------------------------------------------------
  // The clocks. `offset` is what the wall clock shows more than the steady clock, in nanoseconds.

  // When L2 is read, the two clocks are read at the same moment, the object's stamp is not in the future and its
  // lifetime in milliseconds does not wrap around.
  predicate Timely(r: Replica, l2: L2, e: Event, offset: int)
    requires Shaped(r)
  {
    e.Act? && e.thread < |r.pcs| && r.pcs[e.thread].ReadL2? && KeyOf(r, e.thread) in l2 ==>
      var b, wallNs := l2[KeyOf(r, e.thread)], Now(r, e.choice) + offset;
      && wallNs >= 0 && e.choice.wallMs == wallNs / NS_PER_MS
      && b.stampMs * NS_PER_MS <= wallNs && b.ttlSeconds * 1000 < U64
  }

  predicate AllTimely(r: Replica, l2: L2, events: seq<Event>, offset: int)
    requires Shaped(r)
    decreases |events|
  {
    events == []
    || (Timely(r, l2, events[0], offset)
        && AllTimely(Apply(r, l2, events[0]), ApplyL2(r, l2, events[0]), events[1..], offset))
  }

  // The entry is the object, revived when it was put into L1.
  predicate Revived(e: Entry, b: Stored<Response>, offset: int) {
    && OriginAnswer(b.payload) && e.payload == b.payload && b.ttlSeconds * 1000 < U64
    && var wallNs := e.storedAt + offset;
       && wallNs >= 0 && b.stampMs * NS_PER_MS <= wallNs
       && Revive(b, wallNs / NS_PER_MS, e.storedAt) == Some(e)
  }

  // A response is decorated as an L2 hit exactly when it comes from L2.
  predicate Marked(src: Source, resp: Response) {
    src.FromL2? <==> resp.tag == L2HitTag
  }

  predicate PcTraced(pc: Pc, src: Source, offset: int) {
    match pc
    case Start => src.FromOrigin?
    case Lookup(_) => src.FromOrigin?
    case CountMiss(_, _) => src.FromOrigin?
    case Acquire(_, _) => src.FromOrigin?
    case Idle => src.FromOrigin?
    case CountL2Hit(_, e) => src.FromL2? && Revived(e, src.object_, offset)
    case Promote(_, e) => src.FromL2? && Revived(e, src.object_, offset)
    case Erase(_, resp, _) => Marked(src, resp)
    case MakeReady(_, resp, _) => Marked(src, resp)
    case ReadFlag(_, resp) => Marked(src, resp)
    case PutShared(_, resp, e) => Marked(src, resp) && e.payload == resp
    case _ => RoleOf(pc).Some? ==> src.FromOrigin?
  }

  predicate EntryTraced(e: Entry, src: Source, offset: int) {
    match src
    case FromOrigin => e.payload.tag != L2HitTag
    case FromL2(b) => e.payload.tag == L2HitTag || Revived(e, b, offset)
  }

  ghost predicate ThreadsTraced(r: Replica, t: Trace, offset: int)
    requires Traced(r, t)
  {
    forall i :: 0 <= i < |r.pcs| ==> PcTraced(r.pcs[i], t.threads[i], offset)
  }

  ghost predicate SlotsTraced(r: Replica, t: Trace)
    requires Traced(r, t)
  {
    forall s :: 0 <= s < |r.reg.slots| && r.reg.slots[s].ready ==> Marked(t.slots[s], r.reg.slots[s].response)
  }

  ghost predicate L1Traced(r: Replica, t: Trace, offset: int)
    requires Traced(r, t)
  {
    forall k :: k in r.l1 ==> EntryTraced(r.l1[k], t.l1[k], offset)
  }

  ghost predicate AllTraced(r: Replica, t: Trace, offset: int) {
    Traced(r, t) && ThreadsTraced(r, t, offset) && SlotsTraced(r, t) && L1Traced(r, t, offset)
  }

  lemma FetcherTraced(r: Replica, l2: L2, i: nat, c: Choice, t: Trace, offset: int)
    requires Shaped(r) && Traced(r, t) && i < |r.pcs| && Enabled(r, i) && RoleOf(r.pcs[i]).Some?
    requires PcTraced(r.pcs[i], t.threads[i], offset) && HoldsAnswer(r.pcs[i]) && OnlyAnswers(l2)
    requires Timely(r, l2, Act(i, c), offset)
    ensures PcTraced(FetchNext(r, l2, i, c), TraceAfter(r, l2, i, c, t).threads[i], offset)
  {
  }

  lemma ServerTraced(r: Replica, l2: L2, i: nat, c: Choice, t: Trace, offset: int)
    requires Shaped(r) && Traced(r, t) && i < |r.pcs| && Enabled(r, i)
    requires RoleOf(r.pcs[i]).None? && !OnSlot(r.pcs[i]) && PcTraced(r.pcs[i], t.threads[i], offset)
    ensures PcTraced(ServeNext(r, i, c), TraceAfter(r, l2, i, c, t).threads[i], offset)
  {
  }

  lemma WaiterTraced(r: Replica, l2: L2, i: nat, c: Choice, t: Trace, offset: int)
    requires Shaped(r) && Traced(r, t) && i < |r.pcs| && Enabled(r, i) && OnSlot(r.pcs[i])
    requires WatchedOk(r.pcs[i], KeyOf(r, i), r.reg) && SlotsTraced(r, t)
    requires PcTraced(r.pcs[i], t.threads[i], offset)
    ensures PcTraced(SlotNext(r, i, c), TraceAfter(r, l2, i, c, t).threads[i], offset)
  {
  }

  lemma NextTraced(r: Replica, l2: L2, i: nat, c: Choice, t: Trace, offset: int)
    requires Inv(r) && i < |r.pcs| && Enabled(r, i) && AllTraced(r, t, offset)
    requires AllHold(r) && OnlyAnswers(l2) && Timely(r, l2, Act(i, c), offset)
    ensures PcTraced(NextPc(r, l2, i, c), TraceAfter(r, l2, i, c, t).threads[i], offset)
  {
    assert ThreadOk(r, i);
    if RoleOf(r.pcs[i]).Some? {
      FetcherTraced(r, l2, i, c, t, offset);
    } else if OnSlot(r.pcs[i]) {
      WaiterTraced(r, l2, i, c, t, offset);
    } else {
      ServerTraced(r, l2, i, c, t, offset);
    }
  }

  lemma StepThreads(r: Replica, l2: L2, i: nat, c: Choice, t: Trace, offset: int)
    requires Inv(r) && i < |r.pcs| && Enabled(r, i) && AllTraced(r, t, offset)
    requires AllHold(r) && OnlyAnswers(l2) && Timely(r, l2, Act(i, c), offset)
    ensures ThreadsTraced(Step(r, l2, i, c), TraceAfter(r, l2, i, c, t), offset)
  {
    NextTraced(r, l2, i, c, t, offset);
    assert ThreadOk(r, i);
    var r', t' := Step(r, l2, i, c), TraceAfter(r, l2, i, c, t);
    forall j | 0 <= j < |r'.pcs| ensures PcTraced(r'.pcs[j], t'.threads[j], offset) {
      assert PcTraced(r.pcs[j], t.threads[j], offset);
    }
  }

  lemma StepSlots(r: Replica, l2: L2, i: nat, c: Choice, t: Trace, offset: int)
    requires Inv(r) && i < |r.pcs| && Enabled(r, i) && AllTraced(r, t, offset)
    ensures SlotsTraced(Step(r, l2, i, c), TraceAfter(r, l2, i, c, t))
  {
    assert PcTraced(r.pcs[i], t.threads[i], offset);
  }

  lemma StepL1(r: Replica, l2: L2, i: nat, c: Choice, t: Trace, offset: int)
    requires Shaped(r) && i < |r.pcs| && Enabled(r, i) && AllTraced(r, t, offset) && AllHold(r)
    ensures L1Traced(Step(r, l2, i, c), TraceAfter(r, l2, i, c, t), offset)
  {
    assert PcTraced(r.pcs[i], t.threads[i], offset) && HoldsAnswer(r.pcs[i]);
  }

  lemma ApplyTraced(r: Replica, l2: L2, e: Event, t: Trace, offset: int)
    requires Inv(r) && AllTraced(r, t, offset) && AllHold(r) && OnlyAnswers(l2) && Timely(r, l2, e, offset)
    ensures AllTraced(Apply(r, l2, e), ApplyTrace(r, l2, e, t), offset)
  {
    if e.Act? && e.thread < |r.pcs| && Enabled(r, e.thread) {
      StepThreads(r, l2, e.thread, e.choice, t, offset);
      StepSlots(r, l2, e.thread, e.choice, t, offset);
      StepL1(r, l2, e.thread, e.choice, t, offset);
    }
  }

  lemma {:induction false} RunTraced(r: Replica, l2: L2, events: seq<Event>, t: Trace, offset: int)
    requires Inv(r) && AllTraced(r, t, offset) && AllHold(r) && OnlyAnswers(l2)
    requires Disciplined(events) && AllTimely(r, l2, events, offset)
    ensures AllTraced(Run(r, l2, events), RunTrace(r, l2, events, t), offset)
    decreases |events|
  {
    if events != [] {
      var e := events[0];
      ApplyTraced(r, l2, e, t, offset);
      ApplyHolds(r, l2, e);
      ApplyInv(r, l2, e);
      assert forall i :: 0 <= i < |events| - 1 ==> events[1..][i] == events[i + 1];
      RunTraced(Apply(r, l2, e), ApplyL2(r, l2, e), events[1..], ApplyTrace(r, l2, e, t), offset);
    }
  }

  // A moment after the entry was stored; the clock does not run for 146 years.
  predicate InTime(e: Entry, at: int) {
    e.storedAt <= at < e.storedAt + HORIZON
  }

  // An entry is decorated as an L2 hit only if its content was read from L2; and if it was and is not decorated, it is
  // the object itself, used within the object's window.
  predicate ObeysWindow(e: Entry, src: Source, offset: int, at: int) {
    && (e.payload.tag == L2HitTag ==> src.FromL2?)
    && (src.FromL2? && e.payload.tag != L2HitTag ==>
          && OriginAnswer(e.payload) && e.payload == src.object_.payload && e.storedAt + offset >= 0
          && InWindow(src.object_, e.storedAt + offset, e.storedAt, at))
  }

  // In every state a replica can reach: an L1 entry whose content was read from L2 is either the promoted object
  // itself, undecorated, fresh for at least its ttl and less than a second more after its L2 stamp, or a copy that
  // a coalesced request has stored, decorated as an L2 hit. The decoration tells which.
  lemma PromotedEntriesObeyTheWindow(reqs: seq<Request>, hasL2: bool, cfg: Config, l2: L2, events: seq<Event>,
                                     offset: int, k: Key, at: int)
    requires OnlyAnswers(l2) && Disciplined(events) && AllTimely(Initial(reqs, hasL2, cfg), l2, events, offset)
    requires k in Run(Initial(reqs, hasL2, cfg), l2, events).l1
    requires InTime(Run(Initial(reqs, hasL2, cfg), l2, events).l1[k], at)
    ensures var r0 := Initial(reqs, hasL2, cfg);
            ObeysWindow(Run(r0, l2, events).l1[k], RunTrace(r0, l2, events, InitialTrace(r0)).l1[k], offset, at)
  {
    InitialInv(reqs, hasL2, cfg);
    InitialHolds(reqs, hasL2, cfg);
    FromTracedState(Initial(reqs, hasL2, cfg), l2, events, InitialTrace(Initial(reqs, hasL2, cfg)), offset, k, at);
  }

  lemma FromTracedState(r0: Replica, l2: L2, events: seq<Event>, t0: Trace, offset: int, k: Key, at: int)
    requires Inv(r0) && AllTraced(r0, t0, offset) && AllHold(r0) && OnlyAnswers(l2)
    requires Disciplined(events) && AllTimely(r0, l2, events, offset) && k in Run(r0, l2, events).l1
    requires InTime(Run(r0, l2, events).l1[k], at)
    ensures ObeysWindow(Run(r0, l2, events).l1[k], RunTrace(r0, l2, events, t0).l1[k], offset, at)
  {
    RunTraced(r0, l2, events, t0, offset);
    var r, t := Run(r0, l2, events), RunTrace(r0, l2, events, t0);
    assert L1Traced(r, t, offset);
    EntryInWindow(r.l1[k], t.l1[k], offset, at);
  }

  lemma EntryInWindow(e: Entry, src: Source, offset: int, at: int)
    requires EntryTraced(e, src, offset) && InTime(e, at)
    ensures ObeysWindow(e, src, offset, at)
  {
    if src.FromL2? && e.payload.tag != L2HitTag {
      PromotionWindow(src.object_, e.storedAt + offset, e.storedAt, at);
    }
  }
}
