// What every request is answered with, in terms of what happened to it.
module Answers {
  import opened Wrappers
  import opened CacheEntries
  import opened CircuitBreakers
  import opened InFlight
  import opened L2Freshness
  import opened RequestMachine
  import opened SingleFlight

  // ---------------------------------------------------------------------------------------------
  // History: what a thread has met at its accesses to what it shares with others. It is written down as the accesses
  // happen, and the machine never looks at it.

  // What L1 had under the key, and what that was good for at the time the request began.
  datatype Use = Fresh | Stale | Useless
  datatype Found = Unlooked | Absent | Held(entry: Entry, use: Use)

  // What L2 had, what the breaker said, what the origin answered, and what the policy decided and when.
  datatype Second = Unread | Empty | Had(entry: Entry)
  datatype Gate = Unasked | Refused | Admitted
  datatype Reply = Unanswered | Said(answer: Answer)
  datatype Verdict = Undecided | Decided(decision: Decision, at: int)

  // With the time the thread began, and how often it has put something into L1 and into L2.
  datatype Log = Log(began: int, found: Found, second: Second, gate: Gate, reply: Reply, verdict: Verdict,
                     puts1: nat, puts2: nat)

  const NOTHING: Log := Log(0, Unlooked, Unread, Unasked, Unanswered, Undecided, 0, 0)

  function Looked(l1: map<Key, Entry>, key: Key, at: int): Found {
    if key !in l1 then Absent
    else if IsFresh(l1[key], at) then Held(l1[key], Fresh)
    else if IsServeableStale(l1[key], at) then Held(l1[key], Stale)
    else Held(l1[key], Useless)
  }

  function Read(l2: L2, key: Key, up: bool, wallMs: nat, now: int): Second {
    if up && key in l2 && Revive(l2[key], wallMs, now).Some? then Had(Revive(l2[key], wallMs, now).value) else Empty
  }

  function MetServing(r: Replica, i: nat, c: Choice, h: Log): Log
    requires Shaped(r) && i < |r.pcs|
  {
    match r.pcs[i]
    case Start => h.(began := Now(r, c))
    case Lookup(_) => h.(found := Looked(r.l1, KeyOf(r, i), h.began))
    case _ => h
  }

  function MetFetching(r: Replica, l2: L2, i: nat, c: Choice, h: Log): Log
    requires Shaped(r) && i < |r.pcs|
  {
    match r.pcs[i]
    case ReadL2(_) => h.(second := Read(l2, KeyOf(r, i), c.l2Up, c.wallMs, Now(r, c)))
    case Promote(_, _) => h.(puts1 := h.puts1 + 1)
    case AskBreaker(_) => h.(gate := if Admits(r.cfg, r.breaker, Now(r, c)) then Admitted else Refused)
    case Fetch(_) => h.(reply := Said(c.answer))
    case Decide(_, _) => h.(verdict := Decided(c.decision, Now(r, c)))
    case PutL1(_, _, _) => h.(puts1 := h.puts1 + 1)
    case PutL2(_, _, _) => h.(puts2 := h.puts2 + 1)
    case _ => h
  }

  function MetWaiting(r: Replica, i: nat, c: Choice, h: Log): Log
    requires i < |r.pcs|
  {
    match r.pcs[i]
    case ReadFlag(_, _) => h.(verdict := Decided(c.decision, Now(r, c)))
    case PutShared(_, _, _) => h.(puts1 := h.puts1 + 1)
    case _ => h
  }

  function Met(r: Replica, l2: L2, i: nat, c: Choice, h: Log): Log
    requires Shaped(r) && i < |r.pcs|
  {
    if RoleOf(r.pcs[i]).Some? then MetFetching(r, l2, i, c, h)
    else if OnSlot(r.pcs[i]) then MetWaiting(r, i, c, h)
    else MetServing(r, i, c, h)
  }

  function ApplyLogs(r: Replica, l2: L2, e: Event, logs: seq<Log>): (logs': seq<Log>)
    requires Shaped(r) && |logs| == |r.pcs|
    ensures |logs'| == |logs|
  {
    if e.Act? && e.thread < |r.pcs| && Enabled(r, e.thread)
    then logs[e.thread := Met(r, l2, e.thread, e.choice, logs[e.thread])] else logs
  }

  function RunLogs(r: Replica, l2: L2, events: seq<Event>, logs: seq<Log>): (logs': seq<Log>)
    requires Shaped(r) && |logs| == |r.pcs|
    ensures |logs'| == |logs|
    decreases |events|
  {
    if events == [] then logs
    else RunLogs(Apply(r, l2, events[0]), ApplyL2(r, l2, events[0]), events[1..], ApplyLogs(r, l2, events[0], logs))
  }

  // The histories of the threads of a replica that has just started.
  function Logs(reqs: seq<Request>, hasL2: bool, cfg: Config, l2: L2, events: seq<Event>): (logs: seq<Log>)
    ensures |logs| == 2 * |reqs|
  {
    RunLogs(Initial(reqs, hasL2, cfg), l2, events, seq(2 * |reqs|, _ => NOTHING))
  }

  // ---------------------------------------------------------------------------------------------
  // What the history says.

  predicate Hit(h: Log, use: Use) {
    h.found.Held? && h.found.use == use
  }

  predicate Missed(h: Log) {
    h.found.Absent? || Hit(h, Useless)
  }

  predicate Rejected(h: Log) {
    h.gate.Refused? && h.reply.Unanswered?
  }

  predicate Failed(h: Log) {
    h.gate.Admitted? && h.reply.Said? && !h.reply.answer.ok
  }

  predicate Fetched(h: Log) {
    h.gate.Admitted? && h.reply.Said? && h.reply.answer.ok
  }

  // The origin's own answer, with a decoration.
  function Own(h: Log, tag: Tag): Response
    requires h.reply.Said?
  {
    Response(h.reply.answer.status, Content(h.reply.answer.version), tag)
  }

  // The answer of a request that has asked the origin, or tried to.
  predicate FromOrigin(h: Log, resp: Response, tag: Tag) {
    || (Rejected(h) && resp == Response(503, Local, tag))
    || (Failed(h) && resp == Response(502, Local, tag))
    || (Fetched(h) && resp == Own(h, tag))
  }

  // The policy has let the response be stored, and the server has not failed.
  predicate ToStore(h: Log, status: int) {
    h.verdict.Decided? && h.verdict.decision.cacheable && status < 500
  }

  function EntryOf(h: Log, resp: Response): Entry
    requires h.verdict.Decided?
  {
    CacheEntry(resp, h.verdict.at, h.verdict.decision.ttlSeconds, h.verdict.decision.swrSeconds)
  }

  predicate Puts(h: Log, puts1: nat, puts2: nat) {
    h.puts1 == puts1 && h.puts2 == puts2
  }

  // A fetched answer goes into both tiers or into neither.
  predicate PutsAnswer(h: Log) {
    if Fetched(h) then
      h.verdict.Decided? && (if ToStore(h, h.reply.answer.status) then Puts(h, 1, 1) else Puts(h, 0, 0))
    else Puts(h, 0, 0)
  }

  // A leader looks into L2, if there is one, and asks the origin only if it finds nothing there.
  predicate Led(h: Log, hasL2: bool, resp: Response, success: bool) {
    if h.second.Had? then
      hasL2 && resp == h.second.entry.payload.(tag := L2HitTag) && success && h.gate.Unasked? && Puts(h, 1, 0)
    else
      h.second.Empty? == hasL2 && FromOrigin(h, resp, MissTag) && success == Fetched(h) && PutsAnswer(h)
  }

  // It has looked into neither tier.
  predicate Unlooking(h: Log) {
    h.found.Unlooked? && h.second.Unread?
  }

  predicate Revalidated(h: Log, resp: Response, success: bool) {
    && Unlooking(h) && (Rejected(h) || Failed(h) || Fetched(h)) && success == Fetched(h) && PutsAnswer(h)
    && resp == (if Fetched(h) then Own(h, Plain) else Response(200, Local, Plain))
  }

  // What a thread publishes: a request as leader, or a revalidation.
  predicate Settled(h: Log, serving: bool, cacheable: bool, hasL2: bool, resp: Response, success: bool) {
    if serving then cacheable && Missed(h) && Led(h, hasL2, resp, success) else Revalidated(h, resp, success)
  }

  predicate Joining(h: Log) {
    Missed(h) && h.second.Unread? && h.gate.Unasked? && h.reply.Unanswered? && h.puts2 == 0
  }

  // How a finished thread has been answered. What a request that has joined another's fetch is answered with depends
  // on that other.
  predicate Answered(h: Log, serving: bool, cacheable: bool, hasL2: bool, resp: Response, how: Finish) {
    if !serving then how.Published? && Revalidated(h, resp, how.success)
    else if !cacheable then how == Passed && Unlooking(h) && FromOrigin(h, resp, PassTag) && Puts(h, 0, 0)
    else if Hit(h, Fresh) then how == FromHit && resp == h.found.entry.payload.(tag := HitTag) && Quiet(h)
    else if Hit(h, Stale) then how == FromStale && resp == h.found.entry.payload.(tag := StaleTag) && Quiet(h)
    else Missed(h) && if how.Published? then Led(h, hasL2, resp, how.success) else how.Joined? && Joining(h)
  }

  // ---------------------------------------------------------------------------------------------
  // What the history of a thread is at each of its program counters.

  predicate Unfetched(h: Log) {
    h.gate.Unasked? && h.reply.Unanswered? && Unstored(h)
  }

  predicate Unstored(h: Log) {
    h.verdict.Undecided? && Puts(h, 0, 0)
  }

  predicate Quiet(h: Log) {
    h.second.Unread? && Unfetched(h)
  }

  // The miss the thread carries with it.
  predicate Missing(h: Log, cached: Option<Entry>, now: int) {
    h.began == now && (if cached.Some? then h.found == Held(cached.value, Useless) else h.found == Absent)
  }

  predicate RoleLogged(role: Role, h: Log, serving: bool, cacheable: bool, hasL2: bool) {
    match role
    case Passing => serving && !cacheable && Unlooking(h)
    case Leading(_, cached, now) =>
      serving && cacheable && Missing(h, cached, now) && (if hasL2 then h.second.Empty? else h.second.Unread?)
    case Revalidating(_) => !serving && Unlooking(h)
  }

  predicate LeaderLogged(role: Role, h: Log, serving: bool, cacheable: bool, hasL2: bool) {
    role.Leading? && serving && cacheable && hasL2 && Missing(h, role.cached, role.now) && Unfetched(h)
  }

  predicate ResultIs(h: Log, result: Option<Response>) {
    if result.Some? then Fetched(h) && result.value == Own(h, Plain) else Failed(h)
  }

  predicate Storing(role: Role, h: Log, resp: Response, e: Entry) {
    !role.Passing? && Fetched(h) && resp == Own(h, Plain) && ToStore(h, resp.status) && e == EntryOf(h, resp)
  }

  predicate AtL2(pc: Pc) {
    pc.ReadL2? || pc.CountL2Hit? || pc.Promote?
  }

  predicate FetcherLogged(pc: Pc, h: Log, serving: bool, cacheable: bool, hasL2: bool)
    requires RoleOf(pc).Some?
  {
    if AtL2(pc) then LeaderLogged(pc.role, h, serving, cacheable, hasL2) && ReadLogged(pc, h)
    else if pc.Erase? then !pc.role.Passing? && Settled(h, serving, cacheable, hasL2, pc.resp, pc.success)
    else RoleLogged(RoleOf(pc).value, h, serving, cacheable, hasL2) && FetchLogged(pc, h)
  }

  predicate ReadLogged(pc: Pc, h: Log)
    requires AtL2(pc)
  {
    match pc
    case ReadL2(_) => h.second.Unread?
    case CountL2Hit(_, e) => h.second == Had(e)
    case Promote(_, e) => h.second == Had(e)
  }

  predicate FetchLogged(pc: Pc, h: Log)
    requires RoleOf(pc).Some? && !AtL2(pc) && !pc.Erase?
  {
    match pc
    case CountL2Miss(_) => h.second.Empty? && Unfetched(h)
    case AskBreaker(_) => Unfetched(h)
    case CountReject(_) => Rejected(h) && Unstored(h)
    case Fetch(_) => h.gate.Admitted? && h.reply.Unanswered? && Unstored(h)
    case Observe(_, result) => ResultIs(h, result) && Unstored(h)
    case TellBreaker(_, result) => ResultIs(h, result) && Unstored(h)
    case CountError(_) => Failed(h) && Unstored(h)
    case Fail(_, rejected) => (if rejected then Rejected(h) else Failed(h)) && Unstored(h)
    case Decide(_, resp) => Fetched(h) && resp == Own(h, Plain) && Unstored(h)
    case PutL1(role, resp, e) => Storing(role, h, resp, e) && Puts(h, 0, 0)
    case PutL2(role, resp, e) => Storing(role, h, resp, e) && Puts(h, 1, 0)
  }

  predicate SlotLogged(pc: Pc, h: Log, serving: bool, cacheable: bool, hasL2: bool) {
    if pc.MakeReady? then Settled(h, serving, cacheable, hasL2, pc.resp, pc.success)
    else if pc.PutShared? then
      && serving && cacheable && Joining(h) && h.puts1 == 0
      && ToStore(h, pc.resp.status) && pc.entry == EntryOf(h, pc.resp)
    else serving && cacheable && Missed(h) && Quiet(h)
  }

  predicate ServerLogged(pc: Pc, h: Log, serving: bool, cacheable: bool, hasL2: bool)
    requires RoleOf(pc).None? && !OnSlot(pc)
  {
    match pc
    case Idle => !serving && h == NOTHING
    case Start => serving && h == NOTHING
    case Lookup(now) => serving && cacheable && h == NOTHING.(began := now)
    case CountHit(resp) => serving && cacheable && Serves(h, Fresh, HitTag, resp)
    case CountStaleHit(resp) => serving && cacheable && Serves(h, Stale, StaleTag, resp)
    case CountStale(resp) => serving && cacheable && Serves(h, Stale, StaleTag, resp)
    case Trigger(resp) => serving && cacheable && Serves(h, Stale, StaleTag, resp)
    case CountMiss(cached, now) => serving && cacheable && Quiet(h) && Missing(h, cached, now)
    case Acquire(cached, now) => serving && cacheable && Quiet(h) && Missing(h, cached, now)
    case Done(resp, how) => Answered(h, serving, cacheable, hasL2, resp, how)
  }

  predicate Serves(h: Log, use: Use, tag: Tag, resp: Response) {
    Quiet(h) && Hit(h, use) && resp == h.found.entry.payload.(tag := tag)
  }

  predicate PcLogged(pc: Pc, h: Log, serving: bool, cacheable: bool, hasL2: bool) {
    if RoleOf(pc).Some? then FetcherLogged(pc, h, serving, cacheable, hasL2)
    else if OnSlot(pc) then SlotLogged(pc, h, serving, cacheable, hasL2)
    else ServerLogged(pc, h, serving, cacheable, hasL2)
  }

  lemma ReaderMoves(r: Replica, l2: L2, i: nat, c: Choice, h: Log, cacheable: bool)
    requires Shaped(r) && i < |r.pcs| && AtL2(r.pcs[i])
    requires FetcherLogged(r.pcs[i], h, i < |r.reqs|, cacheable, r.hasL2)
    ensures RoleOf(FetchNext(r, l2, i, c)).Some?
    ensures FetcherLogged(FetchNext(r, l2, i, c), MetFetching(r, l2, i, c, h), i < |r.reqs|, cacheable, r.hasL2)
  {
  }

  predicate AtOrigin(pc: Pc) {
    || pc.CountL2Miss? || pc.AskBreaker? || pc.CountReject? || pc.Fetch? || pc.Observe? || pc.TellBreaker?
    || pc.CountError?
  }

  lemma FetcherMoves(r: Replica, l2: L2, i: nat, c: Choice, h: Log, cacheable: bool)
    requires Shaped(r) && i < |r.pcs| && AtOrigin(r.pcs[i])
    requires FetcherLogged(r.pcs[i], h, i < |r.reqs|, cacheable, r.hasL2)
    ensures RoleOf(FetchNext(r, l2, i, c)).Some?
    ensures FetcherLogged(FetchNext(r, l2, i, c), MetFetching(r, l2, i, c, h), i < |r.reqs|, cacheable, r.hasL2)
  {
  }

  predicate AtStores(pc: Pc) {
    pc.Decide? || pc.PutL1? || pc.PutL2?
  }

  lemma StorerMoves(r: Replica, l2: L2, i: nat, c: Choice, h: Log, cacheable: bool)
    requires Shaped(r) && i < |r.pcs| && AtStores(r.pcs[i])
    requires FetcherLogged(r.pcs[i], h, i < |r.reqs|, cacheable, r.hasL2)
    ensures PcLogged(FetchNext(r, l2, i, c), MetFetching(r, l2, i, c, h), i < |r.reqs|, cacheable, r.hasL2)
  {
  }

  // A leader that has missed never falls back to what it saw.
  lemma PublisherMoves(r: Replica, l2: L2, i: nat, c: Choice, h: Log, cacheable: bool)
    requires Shaped(r) && i < |r.pcs| && (r.pcs[i].Fail? || r.pcs[i].Erase?)
    requires OwnOk(OwnSlot(r.pcs[i]), i, KeyOf(r, i), r.reg) && RoleFits(r.pcs[i]) && CarriedOk(r.pcs[i])
    requires FetcherLogged(r.pcs[i], h, i < |r.reqs|, cacheable, r.hasL2)
    ensures PcLogged(FetchNext(r, l2, i, c), MetFetching(r, l2, i, c, h), i < |r.reqs|, cacheable, r.hasL2)
  {
  }

  lemma WaiterMoves(r: Replica, i: nat, c: Choice, h: Log, serving: bool, cacheable: bool)
    requires i < |r.pcs| && Enabled(r, i) && OnSlot(r.pcs[i])
    requires SlotLogged(r.pcs[i], h, serving, cacheable, r.hasL2)
    ensures RoleOf(SlotNext(r, i, c)) == None
    ensures PcLogged(SlotNext(r, i, c), MetWaiting(r, i, c, h), serving, cacheable, r.hasL2)
  {
  }

  lemma ServerMoves(r: Replica, i: nat, c: Choice, h: Log, cacheable: bool)
    requires Shaped(r) && i < |r.pcs| && Enabled(r, i) && RoleOf(r.pcs[i]).None? && !OnSlot(r.pcs[i])
    requires cacheable == RequestOf(r, i).cacheable
    requires ServerLogged(r.pcs[i], h, i < |r.reqs|, cacheable, r.hasL2)
    ensures PcLogged(ServeNext(r, i, c), MetServing(r, i, c, h), i < |r.reqs|, cacheable, r.hasL2)
  {
  }

  lemma FetchingMoves(r: Replica, l2: L2, i: nat, c: Choice, h: Log, cacheable: bool)
    requires Shaped(r) && i < |r.pcs| && RoleOf(r.pcs[i]).Some? && cacheable == RequestOf(r, i).cacheable
    requires PcOk(r.pcs[i], i, i < |r.reqs|, KeyOf(r, i), r.reg)
    requires FetcherLogged(r.pcs[i], h, i < |r.reqs|, cacheable, r.hasL2)
    ensures PcLogged(FetchNext(r, l2, i, c), MetFetching(r, l2, i, c, h), i < |r.reqs|, cacheable, r.hasL2)
  {
    if AtL2(r.pcs[i]) {
      ReaderMoves(r, l2, i, c, h, cacheable);
    } else if AtOrigin(r.pcs[i]) {
      FetcherMoves(r, l2, i, c, h, cacheable);
    } else if AtStores(r.pcs[i]) {
      StorerMoves(r, l2, i, c, h, cacheable);
    } else {
      PublisherMoves(r, l2, i, c, h, cacheable);
    }
  }

  lemma ThreadMoves(r: Replica, l2: L2, i: nat, c: Choice, logs: seq<Log>)
    requires Inv(r) && i < |r.pcs| && Enabled(r, i) && |logs| == |r.pcs| && ThreadLogged(r, logs, i)
    ensures PcLogged(NextPc(r, l2, i, c), Met(r, l2, i, c, logs[i]), i < |r.reqs|, RequestOf(r, i).cacheable, r.hasL2)
  {
    assert ThreadOk(r, i);
    var pc, h, cacheable := r.pcs[i], logs[i], RequestOf(r, i).cacheable;
    if RoleOf(pc).Some? {
      FetchingMoves(r, l2, i, c, h, cacheable);
    } else if OnSlot(pc) {
      WaiterMoves(r, i, c, h, i < |r.reqs|, cacheable);
    } else {
      ServerMoves(r, i, c, h, cacheable);
    }
  }

  ghost predicate ThreadLogged(r: Replica, logs: seq<Log>, i: nat)
    requires Shaped(r) && |logs| == |r.pcs| && i < |r.pcs|
  {
    PcLogged(r.pcs[i], logs[i], i < |r.reqs|, RequestOf(r, i).cacheable, r.hasL2)
  }

  // What a request that has joined a fetch puts into L1 is decided by the slot, and by its own policy decision.
  predicate SharedPuts(h: Log, resp: Response, success: bool) {
    h.puts1 == (if success && ToStore(h, resp.status) then 1 else 0)
  }

  predicate PutsShared(h: Log, slot: Slot<Response>) {
    h.verdict.Decided? && SharedPuts(h, slot.response, slot.success)
  }

  predicate JoinedLogged(pc: Pc, h: Log, reg: Registry<Response>) {
    pc.Done? && pc.how.Joined? ==> pc.how.slot < |reg.slots| && PutsShared(h, reg.slots[pc.how.slot])
  }

  ghost predicate AllLogged(r: Replica, logs: seq<Log>) {
    && Shaped(r) && |logs| == |r.pcs|
    && (forall i: nat :: i < |r.pcs| ==> ThreadLogged(r, logs, i))
    && (forall i: nat :: i < |r.pcs| ==> JoinedLogged(r.pcs[i], logs[i], r.reg))
  }

  predicate Joins(pc: Pc) {
    pc.Done? && pc.how.Joined?
  }

  lemma FetcherNeverJoins(r: Replica, l2: L2, i: nat, c: Choice)
    requires Shaped(r) && i < |r.pcs| && RoleOf(r.pcs[i]).Some?
    ensures !Joins(FetchNext(r, l2, i, c))
  {
  }

  lemma ServerNeverJoins(r: Replica, i: nat, c: Choice)
    requires Shaped(r) && i < |r.pcs| && Enabled(r, i) && RoleOf(r.pcs[i]).None? && !OnSlot(r.pcs[i])
    ensures !Joins(ServeNext(r, i, c))
  {
  }

  lemma JoinerMoves(r: Replica, l2: L2, i: nat, c: Choice, logs: seq<Log>)
    requires Inv(r) && i < |r.pcs| && Enabled(r, i) && |logs| == |r.pcs| && ThreadLogged(r, logs, i)
    ensures JoinedLogged(NextPc(r, l2, i, c), Met(r, l2, i, c, logs[i]), r.reg)
  {
    assert ThreadOk(r, i);
    if RoleOf(r.pcs[i]).Some? {
      FetcherNeverJoins(r, l2, i, c);
    } else if OnSlot(r.pcs[i]) {
      SharerMoves(r, i, c, logs[i], i < |r.reqs|, RequestOf(r, i).cacheable);
    } else {
      ServerNeverJoins(r, i, c);
    }
  }

  lemma SharerMoves(r: Replica, i: nat, c: Choice, h: Log, serving: bool, cacheable: bool)
    requires i < |r.pcs| && Enabled(r, i) && OnSlot(r.pcs[i])
    requires Watched(r.pcs[i]).Some? ==>
               Watched(r.pcs[i]).value < |r.reg.slots| && WatchOk(r.pcs[i], r.reg.slots[Watched(r.pcs[i]).value])
    requires SlotLogged(r.pcs[i], h, serving, cacheable, r.hasL2)
    ensures JoinedLogged(SlotNext(r, i, c), MetWaiting(r, i, c, h), r.reg)
  {
  }

  // A ready slot stays as it is.
  lemma JoinedStays(r: Replica, i: nat, j: nat, h: Log)
    requires Inv(r) && i < |r.pcs| && Enabled(r, i) && j < |r.pcs| && JoinedLogged(r.pcs[j], h, r.reg)
    ensures JoinedLogged(r.pcs[j], h, RegAfter(r, i))
  {
    assert ThreadOk(r, i) && ThreadOk(r, j);
  }

  // A step of thread i moves it, and starts its revalidation at most.
  lemma OthersStay(r: Replica, l2: L2, i: nat, c: Choice, j: nat)
    requires Inv(r) && i < |r.pcs| && Enabled(r, i) && j < |r.pcs| && j != i
    ensures PcsAfter(r, l2, i, c)[j] == r.pcs[j]
            || (r.pcs[j].Idle? && PcsAfter(r, l2, i, c)[j].AskBreaker? && PcsAfter(r, l2, i, c)[j].role.Revalidating?)
  {
    assert ThreadOk(r, i);
  }

  lemma StartedLogged(pc: Pc, serving: bool, cacheable: bool, hasL2: bool, h: Log)
    requires pc.AskBreaker? && pc.role.Revalidating? && PcLogged(Idle, h, serving, cacheable, hasL2)
    ensures PcLogged(pc, h, serving, cacheable, hasL2)
  {
  }

  lemma OtherLogged(r: Replica, l2: L2, i: nat, c: Choice, logs: seq<Log>, j: nat)
    requires Inv(r) && i < |r.pcs| && Enabled(r, i) && AllLogged(r, logs) && j < |r.pcs| && j != i
    ensures PcLogged(PcsAfter(r, l2, i, c)[j], logs[j], j < |r.reqs|, RequestOf(r, j).cacheable, r.hasL2)
    ensures JoinedLogged(PcsAfter(r, l2, i, c)[j], logs[j], RegAfter(r, i))
  {
    OthersStay(r, l2, i, c, j);
    assert ThreadLogged(r, logs, j);
    var pc := PcsAfter(r, l2, i, c)[j];
    if pc == r.pcs[j] {
      JoinedStays(r, i, j, logs[j]);
    } else {
      StartedLogged(pc, j < |r.reqs|, RequestOf(r, j).cacheable, r.hasL2, logs[j]);
    }
  }

  // What joins finds its slot as it was.
  lemma JoinedAfter(r: Replica, l2: L2, i: nat, c: Choice, h: Log)
    requires Shaped(r) && i < |r.pcs| && Enabled(r, i) && JoinedLogged(NextPc(r, l2, i, c), h, r.reg)
    ensures JoinedLogged(NextPc(r, l2, i, c), h, RegAfter(r, i))
  {
    if RoleOf(r.pcs[i]).Some? {
      FetcherNeverJoins(r, l2, i, c);
    } else if !OnSlot(r.pcs[i]) {
      ServerNeverJoins(r, i, c);
    }
  }

  lemma OwnLogged(r: Replica, l2: L2, i: nat, c: Choice, logs: seq<Log>)
    requires Inv(r) && i < |r.pcs| && Enabled(r, i) && |logs| == |r.pcs| && ThreadLogged(r, logs, i)
    ensures var pc, h := PcsAfter(r, l2, i, c)[i], Met(r, l2, i, c, logs[i]);
            && PcLogged(pc, h, i < |r.reqs|, RequestOf(r, i).cacheable, r.hasL2)
            && JoinedLogged(pc, h, RegAfter(r, i))
  {
    ThreadMoves(r, l2, i, c, logs);
    JoinerMoves(r, l2, i, c, logs);
    JoinedAfter(r, l2, i, c, Met(r, l2, i, c, logs[i]));
    assert PcsAfter(r, l2, i, c)[i] == NextPc(r, l2, i, c);
  }

  ghost predicate LoggedAt(r: Replica, pcs: seq<Pc>, reg: Registry<Response>, logs: seq<Log>, j: nat)
    requires Shaped(r) && |logs| == |pcs| == |r.pcs| && j < |pcs|
  {
    && PcLogged(pcs[j], logs[j], j < |r.reqs|, RequestOf(r, j).cacheable, r.hasL2)
    && JoinedLogged(pcs[j], logs[j], reg)
  }

  lemma StepLogged(r: Replica, l2: L2, i: nat, c: Choice, logs: seq<Log>)
    requires Inv(r) && i < |r.pcs| && Enabled(r, i) && AllLogged(r, logs)
    ensures AllLogged(Step(r, l2, i, c), logs[i := Met(r, l2, i, c, logs[i])])
  {
    var pcs, logs' := PcsAfter(r, l2, i, c), logs[i := Met(r, l2, i, c, logs[i])];
    forall j: nat | j < |pcs| ensures LoggedAt(r, pcs, RegAfter(r, i), logs', j) {
      assert ThreadLogged(r, logs, i);
      if j == i {
        OwnLogged(r, l2, i, c, logs);
      } else {
        OtherLogged(r, l2, i, c, logs, j);
      }
    }
    Assembled(r, Step(r, l2, i, c), logs');
  }

  lemma Assembled(r: Replica, r': Replica, logs: seq<Log>)
    requires Shaped(r) && r'.reqs == r.reqs && r'.hasL2 == r.hasL2 && |r'.pcs| == |r.pcs| == |logs|
    requires forall j: nat :: j < |r'.pcs| ==> LoggedAt(r, r'.pcs, r'.reg, logs, j)
    ensures AllLogged(r', logs)
  {
    forall j: nat | j < |r'.pcs| ensures ThreadLogged(r', logs, j) && JoinedLogged(r'.pcs[j], logs[j], r'.reg) {
      assert LoggedAt(r, r'.pcs, r'.reg, logs, j);
    }
  }

  lemma ApplyLogged(r: Replica, l2: L2, e: Event, logs: seq<Log>)
    requires Inv(r) && AllLogged(r, logs)
    ensures AllLogged(Apply(r, l2, e), ApplyLogs(r, l2, e, logs))
  {
    if e.Act? && e.thread < |r.pcs| && Enabled(r, e.thread) {
      StepLogged(r, l2, e.thread, e.choice, logs);
    } else {
      forall j: nat | j < |r.pcs| ensures LoggedAt(r, r.pcs, r.reg, logs, j) {
        assert ThreadLogged(r, logs, j);
      }
      Assembled(r, Apply(r, l2, e), logs);
    }
  }

  lemma {:induction false} RunLogged(r: Replica, l2: L2, events: seq<Event>, logs: seq<Log>)
    requires Inv(r) && AllLogged(r, logs)
    ensures AllLogged(Run(r, l2, events), RunLogs(r, l2, events, logs))
    decreases |events|
  {
    if events != [] {
      ApplyLogged(r, l2, events[0], logs);
      ApplyInv(r, l2, events[0]);
      RunLogged(Apply(r, l2, events[0]), ApplyL2(r, l2, events[0]), events[1..], ApplyLogs(r, l2, events[0], logs));
    }
  }

  lemma InitialLogged(reqs: seq<Request>, hasL2: bool, cfg: Config)
    ensures AllLogged(Initial(reqs, hasL2, cfg), seq(2 * |reqs|, _ => NOTHING))
  {
  }

  lemma AlwaysLogged(reqs: seq<Request>, hasL2: bool, cfg: Config, l2: L2, events: seq<Event>)
    ensures AllLogged(Run(Initial(reqs, hasL2, cfg), l2, events), Logs(reqs, hasL2, cfg, l2, events))
    ensures Inv(Run(Initial(reqs, hasL2, cfg), l2, events))
    ensures Run(Initial(reqs, hasL2, cfg), l2, events).reqs == reqs
    ensures Run(Initial(reqs, hasL2, cfg), l2, events).hasL2 == hasL2
  {
    InitialInv(reqs, hasL2, cfg);
    InitialLogged(reqs, hasL2, cfg);
    RunLogged(Initial(reqs, hasL2, cfg), l2, events, seq(2 * |reqs|, _ => NOTHING));
    RunInv(Initial(reqs, hasL2, cfg), l2, events);
    RunKeepsShape(Initial(reqs, hasL2, cfg), l2, events);
  }

  lemma {:induction false} RunKeepsShape(r: Replica, l2: L2, events: seq<Event>)
    requires Shaped(r)
    ensures Run(r, l2, events).reqs == r.reqs && Run(r, l2, events).hasL2 == r.hasL2
    decreases |events|
  {
    if events != [] {
      RunKeepsShape(Apply(r, l2, events[0]), ApplyL2(r, l2, events[0]), events[1..]);
    }
  }

  // ---------------------------------------------------------------------------------------------
  // The results, for every schedule.

  // Every finished thread has been answered as its history says: a request that may not be cached by the origin, a
  // fresh or stale hit by what L1 had, a leader by L2 or the origin, and a failure by 502 or 503; and a request that
  // has joined a fetch has neither asked the origin nor L2.
  lemma EveryAnswer(reqs: seq<Request>, hasL2: bool, cfg: Config, l2: L2, events: seq<Event>, i: nat)
    requires i < 2 * |reqs| == |Run(Initial(reqs, hasL2, cfg), l2, events).pcs|
    requires Run(Initial(reqs, hasL2, cfg), l2, events).pcs[i].Done?
    ensures var pc := Run(Initial(reqs, hasL2, cfg), l2, events).pcs[i];
            var request := reqs[if i < |reqs| then i else i - |reqs|];
            Answered(Logs(reqs, hasL2, cfg, l2, events)[i], i < |reqs|, request.cacheable, hasL2, pc.resp, pc.how)
  {
    AlwaysLogged(reqs, hasL2, cfg, l2, events);
    assert ThreadLogged(Run(Initial(reqs, hasL2, cfg), l2, events), Logs(reqs, hasL2, cfg, l2, events), i);
  }

  // It has been answered with what another thread for its key was answered with, or has published, and stores that
  // exactly when it is a success and its own policy decision lets it.
  lemma EveryJoinedAnswer(reqs: seq<Request>, hasL2: bool, cfg: Config, l2: L2, events: seq<Event>, i: nat)
    requires i < |Run(Initial(reqs, hasL2, cfg), l2, events).pcs|
    requires Joins(Run(Initial(reqs, hasL2, cfg), l2, events).pcs[i])
    ensures var r := Run(Initial(reqs, hasL2, cfg), l2, events);
            exists j: nat, resp: Response, success: bool ::
              && j < |r.pcs| && KeyOf(r, j) == KeyOf(r, i)
              && r.pcs[j] == Done(resp, Published(r.pcs[i].how.slot, success))
              && r.pcs[i].resp == resp.(tag := CoalescedTag)
              && SharedPuts(Logs(reqs, hasL2, cfg, l2, events)[i], resp, success)
  {
    AlwaysLogged(reqs, hasL2, cfg, l2, events);
    var r, logs := Run(Initial(reqs, hasL2, cfg), l2, events), Logs(reqs, hasL2, cfg, l2, events);
    var resp, success, j := JoinedFrom(r, logs, i);
  }

  lemma JoinedFrom(r: Replica, logs: seq<Log>, i: nat) returns (resp: Response, success: bool, j: nat)
    requires Inv(r) && AllLogged(r, logs) && i < |r.pcs| && Joins(r.pcs[i])
    ensures j < |r.pcs| && KeyOf(r, j) == KeyOf(r, i)
    ensures r.pcs[j] == Done(resp, Published(r.pcs[i].how.slot, success))
    ensures r.pcs[i].resp == resp.(tag := CoalescedTag)
    ensures SharedPuts(logs[i], resp, success)
  {
    var s := r.pcs[i].how.slot;
    assert ThreadOk(r, i) && SlotOk(r, s);
    var slot := r.reg.slots[s];
    resp, success, j := slot.response, slot.success, slot.leader;
  }

  // What a step may leave in L1 under the thread's key, unless it is evicted at once: what L2 had, the thread's own
  // answer or the answer it shares, with the lifetime the policy has decided on. No other step puts anything into L1.
  predicate LeavesInL1(r: Replica, i: nat, c: Choice, h: Log, l1: map<Key, Entry>)
    requires Shaped(r) && i < |r.pcs|
  {
    var pc, key := r.pcs[i], KeyOf(r, i);
    if !pc.Promote? && !pc.PutL1? && !pc.PutShared? then l1 == r.l1
    else key !in c.evicted ==>
      && key in l1
      && (pc.Promote? ==> h.second == Had(l1[key]))
      && (pc.PutL1? ==>
            Fetched(h) && ToStore(h, h.reply.answer.status) && l1[key] == EntryOf(h, Own(h, Plain)))
      && (pc.PutShared? ==>
            && pc.slot < |r.reg.slots| && h.verdict.Decided?
            && r.reg.slots[pc.slot].success && l1[key] == EntryOf(h, r.reg.slots[pc.slot].response))
  }

  lemma EveryStore(reqs: seq<Request>, hasL2: bool, cfg: Config, l2: L2, events: seq<Event>, now2: L2, i: nat,
                   c: Choice)
    requires i < |Run(Initial(reqs, hasL2, cfg), l2, events).pcs|
    requires Enabled(Run(Initial(reqs, hasL2, cfg), l2, events), i)
    ensures var r, h := Run(Initial(reqs, hasL2, cfg), l2, events), Logs(reqs, hasL2, cfg, l2, events)[i];
            LeavesInL1(r, i, c, h, Step(r, now2, i, c).l1)
  {
    AlwaysLogged(reqs, hasL2, cfg, l2, events);
    StoreStep(Run(Initial(reqs, hasL2, cfg), l2, events), now2, i, c, Logs(reqs, hasL2, cfg, l2, events));
  }

  lemma StoreStep(r: Replica, l2: L2, i: nat, c: Choice, logs: seq<Log>)
    requires Inv(r) && i < |r.pcs| && Enabled(r, i) && AllLogged(r, logs)
    ensures LeavesInL1(r, i, c, logs[i], Step(r, l2, i, c).l1)
  {
    assert ThreadOk(r, i) && ThreadLogged(r, logs, i);
  }

  // What a step leaves in L2: the thread's own answer, if Redis takes it and the policy gives it a lifetime.
  lemma EverySecondStore(reqs: seq<Request>, hasL2: bool, cfg: Config, l2: L2, events: seq<Event>, now2: L2, i: nat,
                         c: Choice)
    requires i < |Run(Initial(reqs, hasL2, cfg), l2, events).pcs|
    ensures var r, h := Run(Initial(reqs, hasL2, cfg), l2, events), Logs(reqs, hasL2, cfg, l2, events)[i];
            if r.pcs[i].PutL2? then
              && Fetched(h) && ToStore(h, h.reply.answer.status)
              && L2After(r, now2, i, c)
                 == (if hasL2 && c.l2Up && h.verdict.decision.ttlSeconds != 0 then
                       now2[KeyOf(r, i) := Stored(Own(h, Plain), h.verdict.decision.ttlSeconds,
                                                  h.verdict.decision.swrSeconds, c.wallMs)]
                     else now2)
            else L2After(r, now2, i, c) == now2
  {
    AlwaysLogged(reqs, hasL2, cfg, l2, events);
    var r, logs := Run(Initial(reqs, hasL2, cfg), l2, events), Logs(reqs, hasL2, cfg, l2, events);
    assert ThreadLogged(r, logs, i);
  }
}
