// The request path of one proxy replica as a state machine. A thread's program counter names the next
// access it makes to shared state (a lock, an atomic counter, the origin, Redis), so every
// interleaving of RequestHandler::process and triggerRevalidation at that grain is a sequence of steps.
module RequestMachine {
  import opened Wrappers
  import opened CacheEntries
  import opened CircuitBreakers
  import opened InFlight
  import opened L2Freshness

  // `version` identifies what the origin had at the moment it answered; Local is a body the proxy
  // makes itself (error pages, the blank response of a failed revalidation).
  datatype Body = Content(version: nat) | Local

  // The X-Cache decoration.
  datatype Tag = Plain | PassTag | HitTag | L2HitTag | StaleTag | OriginDownTag | MissTag | CoalescedTag

  datatype Response = Response(status: int, body: Body, tag: Tag)

  type Entry = CacheEntry<Response>
  type L2 = map<Key, Stored<Response>>

  // All of a request that the machine looks at: whether its method is GET or HEAD, and its cache key.
  datatype Request = Request(cacheable: bool, key: Key)

  const BLANK: Response := Response(200, Local, Plain)

  function Refusal(rejected: bool, tag: Tag): Response {
    Response(if rejected then 503 else 502, Local, tag)
  }

  // What a thread is fetching for: a PASS request, a coalescing leader (with the cached entry it saw
  // and the time it looked), or a detached revalidation. `own` is the slot it has to publish.
  datatype Role = Passing | Leading(own: nat, cached: Option<Entry>, now: int) | Revalidating(own: nat)

  datatype Finish = FromHit | FromStale | Passed | Published(slot: nat, success: bool) | Joined(slot: nat) | Lost

  datatype Pc =
    | Idle                                                  // revalidation thread not started
    | Start
    | Lookup(now: int)
    | CountHit(resp: Response)
    | CountStaleHit(resp: Response)
    | CountStale(resp: Response)
    | Trigger(resp: Response)
    | CountMiss(cached: Option<Entry>, now: int)
    | Acquire(cached: Option<Entry>, now: int)
    | ReadL2(role: Role)
    | CountL2Hit(role: Role, entry: Entry)
    | Promote(role: Role, entry: Entry)
    | CountL2Miss(role: Role)
    | AskBreaker(role: Role)
    | CountReject(role: Role)
    | Fetch(role: Role)
    | Observe(role: Role, result: Option<Response>)
    | TellBreaker(role: Role, result: Option<Response>)
    | CountError(role: Role)
    | Decide(role: Role, resp: Response)
    | PutL1(role: Role, resp: Response, entry: Entry)
    | PutL2(role: Role, resp: Response, entry: Entry)
    | Fail(role: Role, rejected: bool)
    | Erase(role: Role, resp: Response, success: bool)      // publish, first critical section
    | MakeReady(slot: nat, resp: Response, success: bool)   // publish, second critical section
    | Wait(slot: nat)
    | ReadResponse(slot: nat)
    | ReadFlag(slot: nat, resp: Response)
    | PutShared(slot: nat, resp: Response, entry: Entry)
    | Done(resp: Response, how: Finish)

  // What a thread past its cache lookup is working for.
  function RoleOf(pc: Pc): Option<Role> {
    match pc
    case ReadL2(role) => Some(role)
    case CountL2Hit(role, _) => Some(role)
    case Promote(role, _) => Some(role)
    case CountL2Miss(role) => Some(role)
    case AskBreaker(role) => Some(role)
    case CountReject(role) => Some(role)
    case Fetch(role) => Some(role)
    case Observe(role, _) => Some(role)
    case TellBreaker(role, _) => Some(role)
    case CountError(role) => Some(role)
    case Decide(role, _) => Some(role)
    case PutL1(role, _, _) => Some(role)
    case PutL2(role, _, _) => Some(role)
    case Fail(role, _) => Some(role)
    case Erase(role, _, _) => Some(role)
    case _ => None
  }

  datatype Counters = Counters(hits: nat, misses: nat, staleServed: nat, originFetches: nat, originErrors: nat,
                               circuitRejects: nat, l2Hits: nat, l2Misses: nat)

  // Thread i < |reqs| serves reqs[i]; thread |reqs| + i is the revalidation that request i may start.
  datatype Replica = Replica(reqs: seq<Request>, hasL2: bool, cfg: Config, pcs: seq<Pc>,
                             l1: map<Key, Entry>, reg: Registry<Response>, breaker: Breaker,
                             counters: Counters, clock: int)

  // Everything the code does not determine: the clocks, whether Redis answers, which keys the LRU evicts
  // after a put, what the cache policy decides, and what the origin answers.
  datatype Decision = Decision(cacheable: bool, ttlSeconds: nat, swrSeconds: nat)
  datatype Answer = Answer(ok: bool, status: int, version: nat)
  datatype Choice = Choice(now: int, wallMs: nat, l2Up: bool, evicted: set<Key>, decision: Decision, answer: Answer)

  predicate Shaped(r: Replica) {
    |r.pcs| == 2 * |r.reqs|
  }

  function RequestOf(r: Replica, i: nat): Request
    requires Shaped(r) && i < |r.pcs|
  {
    r.reqs[if i < |r.reqs| then i else i - |r.reqs|]
  }

  function KeyOf(r: Replica, i: nat): Key
    requires Shaped(r) && i < |r.pcs|
  {
    RequestOf(r, i).key
  }

  function Initial(reqs: seq<Request>, hasL2: bool, cfg: Config): Replica {
    Replica(reqs, hasL2, cfg, seq(2 * |reqs|, i => if i < |reqs| then Start else Idle),
            map[], Registry(map[], [], 0), INITIAL, Counters(0, 0, 0, 0, 0, 0, 0, 0), 0)
  }

  // A thread can move unless it has finished, has not been started, or waits for a slot that is not ready.
  predicate Enabled(r: Replica, i: nat)
    requires i < |r.pcs|
  {
    match r.pcs[i]
    case Idle => false
    case Done(_, _) => false
    case Wait(slot) => slot < |r.reg.slots| && r.reg.slots[slot].ready
    case ReadResponse(slot) => slot < |r.reg.slots|
    case ReadFlag(slot, _) => slot < |r.reg.slots|
    case MakeReady(slot, _, _) => slot < |r.reg.slots|
    case _ => true
  }

  // Time may pass at every step; a thread that reads the steady clock at this step reads this.
  function Now(r: Replica, c: Choice): int {
    Max(r.clock, c.now)
  }

  function Put(l1: map<Key, Entry>, key: Key, e: Entry, evicted: set<Key>): map<Key, Entry> {
    l1[key := e] - evicted
  }

  // The response a leader or revalidation publishes after a successful fetch.
  function Fetched(role: Role, resp: Response): Response {
    if role.Leading? then resp.(tag := MissTag) else resp
  }

  const SERVER_ERROR: int := 500

  // Whatever a policy decides, it does not store the answer of a failing server.
  predicate Stores(resp: Response, d: Decision) {
    d.cacheable && resp.status < SERVER_ERROR
  }

  function ReadTier2(r: Replica, l2: L2, key: Key, c: Choice): Option<Entry> {
    if c.l2Up && key in l2 then Revive(l2[key], c.wallMs, Now(r, c)) else None
  }

  // The response of a leader whose fetch failed: the stale copy it saw, if that is still serveable at
  // the time of its lookup, and otherwise an error.
  predicate FallsBack(cached: Option<Entry>, now: int) {
    cached.Some? && IsServeableStale(cached.value, now)
  }

  // One step of thread i: its next program counter, and what the access does to each shared object.

  function ServeNext(r: Replica, i: nat, c: Choice): Pc
    requires Shaped(r) && i < |r.pcs|
  {
    var key := KeyOf(r, i);
    match r.pcs[i]
    case Start => if RequestOf(r, i).cacheable then Lookup(Now(r, c)) else AskBreaker(Passing)
    case Lookup(now) =>
      if key !in r.l1 then CountMiss(None, now)
      else
        var e := r.l1[key];
        if IsFresh(e, now) then CountHit(e.payload.(tag := HitTag))
        else if IsServeableStale(e, now) then CountStaleHit(e.payload.(tag := StaleTag))
        else CountMiss(Some(e), now)
    case CountHit(resp) => Done(resp, FromHit)
    case CountStaleHit(resp) => CountStale(resp)
    case CountStale(resp) => Trigger(resp)
    case Trigger(resp) => Done(resp, FromStale)
    case CountMiss(cached, now) => Acquire(cached, now)
    case Acquire(cached, now) =>
      var slot := SlotFor(r.reg, key);
      if key in r.reg.inflight then Wait(slot)
      else if r.hasL2 then ReadL2(Leading(slot, cached, now))
      else AskBreaker(Leading(slot, cached, now))
    case pc => pc
  }

  function FetchNext(r: Replica, l2: L2, i: nat, c: Choice): Pc
    requires Shaped(r) && i < |r.pcs|
  {
    var key := KeyOf(r, i);
    match r.pcs[i]
    case ReadL2(role) =>
      (match ReadTier2(r, l2, key, c) case Some(e) => CountL2Hit(role, e) case None => CountL2Miss(role))
    case CountL2Hit(role, e) => Promote(role, e)
    case Promote(role, e) => Erase(role, e.payload.(tag := L2HitTag), true)
    case CountL2Miss(role) => AskBreaker(role)
    case AskBreaker(role) => if Admits(r.cfg, r.breaker, Now(r, c)) then Fetch(role) else CountReject(role)
    case CountReject(role) => Fail(role, true)
    case Fetch(role) =>
      Observe(role, if c.answer.ok then Some(Response(c.answer.status, Content(c.answer.version), Plain)) else None)
    case Observe(role, result) => TellBreaker(role, result)
    case TellBreaker(role, result) => if result.Some? then Decide(role, result.value) else CountError(role)
    case CountError(role) => Fail(role, false)
    case Decide(role, resp) =>
      if role.Passing? then Done(resp.(tag := PassTag), Passed)
      else if !Stores(resp, c.decision) then Erase(role, Fetched(role, resp), true)
      else PutL1(role, resp, CacheEntry(resp, Now(r, c), c.decision.ttlSeconds, c.decision.swrSeconds))
    case PutL1(role, resp, e) => PutL2(role, resp, e)
    case PutL2(role, resp, e) => Erase(role, Fetched(role, resp), true)
    case Fail(Passing, rejected) => Done(Refusal(rejected, PassTag), Passed)
    case Fail(Leading(own, cached, now), rejected) =>
      if FallsBack(cached, now) then
        Erase(Leading(own, cached, now), cached.value.payload.(tag := OriginDownTag), false)
      else
        Erase(Leading(own, cached, now), Refusal(rejected, MissTag), false)
    case Fail(Revalidating(own), _) => Erase(Revalidating(own), BLANK, false)
    case Erase(role, resp, success) =>
      if key in r.reg.inflight then MakeReady(r.reg.inflight[key], resp, success) else Done(resp, Lost)
    case pc => pc
  }

  function SlotNext(r: Replica, i: nat, c: Choice): Pc
    requires i < |r.pcs| && Enabled(r, i)
  {
    match r.pcs[i]
    case MakeReady(slot, resp, success) => Done(resp, Published(slot, success))
    case Wait(slot) => ReadResponse(slot)
    case ReadResponse(slot) => ReadFlag(slot, r.reg.slots[slot].response)
    case ReadFlag(slot, resp) =>
      if r.reg.slots[slot].success && Stores(resp, c.decision) then
        PutShared(slot, resp, CacheEntry(resp, Now(r, c), c.decision.ttlSeconds, c.decision.swrSeconds))
      else
        Done(resp.(tag := CoalescedTag), Joined(slot))
    case PutShared(slot, resp, _) => Done(resp.(tag := CoalescedTag), Joined(slot))
    case pc => pc
  }

  predicate OnSlot(pc: Pc) {
    pc.MakeReady? || pc.Wait? || pc.ReadResponse? || pc.ReadFlag? || pc.PutShared?
  }

  function NextPc(r: Replica, l2: L2, i: nat, c: Choice): Pc
    requires Shaped(r) && i < |r.pcs| && Enabled(r, i)
  {
    if RoleOf(r.pcs[i]).Some? then FetchNext(r, l2, i, c)
    else if OnSlot(r.pcs[i]) then SlotNext(r, i, c)
    else ServeNext(r, i, c)
  }

  // A stale hit that finds no fetch in flight for its key starts the revalidation thread.
  predicate Spawns(r: Replica, i: nat)
    requires Shaped(r) && i < |r.pcs|
  {
    r.pcs[i].Trigger? && i < |r.reqs| && KeyOf(r, i) !in r.reg.inflight
  }

  function PcsAfter(r: Replica, l2: L2, i: nat, c: Choice): (pcs: seq<Pc>)
    requires Shaped(r) && i < |r.pcs| && Enabled(r, i)
    ensures |pcs| == |r.pcs|
  {
    var pcs := r.pcs[i := NextPc(r, l2, i, c)];
    if Spawns(r, i) then pcs[|r.reqs| + i := AskBreaker(Revalidating(SlotFor(r.reg, KeyOf(r, i))))] else pcs
  }

  function RegAfter(r: Replica, i: nat): Registry<Response>
    requires Shaped(r) && i < |r.pcs| && Enabled(r, i)
  {
    match r.pcs[i]
    case Acquire(_, _) => Acquired(r.reg, KeyOf(r, i), i, BLANK)
    case Trigger(_) => Acquired(r.reg, KeyOf(r, i), |r.reqs| + i, BLANK)
    case Erase(_, _, _) => Erased(r.reg, KeyOf(r, i))
    case MakeReady(slot, resp, success) => MadeReady(r.reg, slot, resp, success)
    case _ => r.reg
  }

  function L1After(r: Replica, i: nat, c: Choice): map<Key, Entry>
    requires Shaped(r) && i < |r.pcs|
  {
    match r.pcs[i]
    case Promote(_, e) => Put(r.l1, KeyOf(r, i), e, c.evicted)
    case PutL1(_, _, e) => Put(r.l1, KeyOf(r, i), e, c.evicted)
    case PutShared(_, _, e) => Put(r.l1, KeyOf(r, i), e, c.evicted)
    case _ => r.l1
  }

  function L2After(r: Replica, l2: L2, i: nat, c: Choice): L2
    requires Shaped(r) && i < |r.pcs|
  {
    match r.pcs[i]
    case PutL2(_, _, e) =>
      if r.hasL2 && c.l2Up && e.ttlSeconds != 0
      then l2[KeyOf(r, i) := Stored(e.payload, e.ttlSeconds, e.swrSeconds, c.wallMs)] else l2
    case _ => l2
  }

  function BreakerAfter(r: Replica, i: nat, c: Choice): Breaker
    requires i < |r.pcs|
  {
    match r.pcs[i]
    case AskBreaker(_) => AfterAsk(r.cfg, r.breaker, Now(r, c))
    case TellBreaker(_, Some(_)) => AfterSuccess(r.breaker)
    case TellBreaker(_, None) => AfterFailure(r.cfg, r.breaker, Now(r, c))
    case _ => r.breaker
  }

  function CountersAfter(r: Replica, i: nat): Counters
    requires Shaped(r) && i < |r.pcs|
  {
    var n := r.counters;
    match r.pcs[i]
    case Start => if RequestOf(r, i).cacheable then n else n.(misses := n.misses + 1)
    case CountHit(_) => n.(hits := n.hits + 1)
    case CountStaleHit(_) => n.(hits := n.hits + 1)
    case CountStale(_) => n.(staleServed := n.staleServed + 1)
    case CountMiss(_, _) => n.(misses := n.misses + 1)
    case CountL2Hit(_, _) => n.(l2Hits := n.l2Hits + 1)
    case CountL2Miss(_) => n.(l2Misses := n.l2Misses + 1)
    case CountReject(_) => n.(circuitRejects := n.circuitRejects + 1)
    case Observe(_, _) => n.(originFetches := n.originFetches + 1)
    case CountError(_) => n.(originErrors := n.originErrors + 1)
    case Fail(Leading(_, cached, now), _) =>
      if FallsBack(cached, now) then n.(staleServed := n.staleServed + 1) else n
    case _ => n
  }

  function Step(r: Replica, l2: L2, i: nat, c: Choice): Replica
    requires Shaped(r) && i < |r.pcs| && Enabled(r, i)
  {
    Replica(r.reqs, r.hasL2, r.cfg, PcsAfter(r, l2, i, c), L1After(r, i, c), RegAfter(r, i),
            BreakerAfter(r, i, c), CountersAfter(r, i), Now(r, c))
  }

  // A run: threads are scheduled in any order (scheduling a blocked one changes nothing, as when a wait
  // wakes up too early); between their steps keys may leave L1 (sweep, purge) and the other replicas
  // and Redis may do anything to L2.
  datatype Event = Act(thread: nat, choice: Choice) | Drop(keys: set<Key>) | Elsewhere(l2: L2)

  function Apply(r: Replica, l2: L2, e: Event): Replica
    requires Shaped(r)
  {
    match e
    case Act(i, c) => if i < |r.pcs| && Enabled(r, i) then Step(r, l2, i, c) else r
    case Drop(keys) => r.(l1 := r.l1 - keys)
    case Elsewhere(_) => r
  }

  function ApplyL2(r: Replica, l2: L2, e: Event): L2
    requires Shaped(r)
  {
    match e
    case Act(i, c) => if i < |r.pcs| && Enabled(r, i) then L2After(r, l2, i, c) else l2
    case Drop(_) => l2
    case Elsewhere(l2') => l2'
  }

  function Run(r: Replica, l2: L2, events: seq<Event>): (r': Replica)
    requires Shaped(r)
    ensures Shaped(r') && r'.reqs == r.reqs
    decreases |events|
  {
    if events == [] then r else Run(Apply(r, l2, events[0]), ApplyL2(r, l2, events[0]), events[1..])
  }

  predicate Finished(r: Replica) {
    forall i :: 0 <= i < |r.pcs| ==> r.pcs[i].Done? || r.pcs[i].Idle?
  }
}
