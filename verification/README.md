# EdgeCache: a verified model

EdgeCache is a caching reverse proxy (C++) with a control plane (TypeScript). This project models the proxy's request
path as a concurrent protocol, the purge protocol across a fleet of proxies, and the data structures and codecs both
depend on, and proves what they promise. `dafny verify dfyconfig.toml` checks all of it.

## How the model is laid out

**The request protocol.** `RequestMachine` is one replica as a state machine: each thread's program counter names
its next access to shared state, so every interleaving of request threads, coalesced waiters and detached revalidations
at lock granularity is a sequence of steps. Clocks, Redis, the origin, evictions and policy decisions are choices made
anew at every step. `publish` is two steps, as in the code.

`SingleFlight` has the invariant and what follows from it: who owns a key, that a leader always finds its own slot, one
coalesced fetch per key at a time, what a waiter gets. `Coalescing` has the exact condition under which all requests for
a key cost one fetch, and `SecondFetch` a schedule in which two concurrent misses cost two. `Provenance` has that content
never crosses from one key to another. `Answers` writes down what each thread meets at its accesses, and says what every
request is answered with and stores in terms of that. `Accounting` has the law of the metrics counters, and `Tallies`
that each counter is the number of threads the thing has happened to. `Progress` has termination and freedom from
deadlock. `L2Origins` has what the shared tier can contain; `L2Freshness` and `L2Lineage` have for how
long what was read from it is used, `LateCopy` the run in which a coalesced copy is used for longer. `InFlight` and
`CircuitBreakers` are the registry and the breaker as objects with mutable fields; the machine uses the functions those
objects are proved against. `BreakerLaws` has the breaker under concurrent callers, late results included: what it lets
through and when it turns, exactly. `ReplicaBreaker` shows that the breaker inside a replica is such a breaker in every
run, and `FetchRate` what that means for the fetches of a replica.

**The fleet.** `FleetPurge` puts any number of replicas around one L2 tier and an origin whose content has versions, and
proves that evicting L2 before L1 is enough, and why; `PurgeExactness` has that the condition is exact. `ScanPurge` puts
the SCAN loop of the L2 eviction into the fleet, `L2Purges` is the loop itself, with its count. `PurgeDelivery` is the
pub/sub message and the replica's subscriber.

**The caches.** `LruCaches.LruCache` is the list, the index and the byte counter; `LruLists` is the recency list it
refines, `LruLaws` proves the inclusion property (`InclusionLimits` has which operations keep it) and links the cache to
the map the protocol uses, `ShardedCaches` and `ShardingLaws` do the shards.

**Codecs and policies.** `L2Blob` (on `FieldLists`, which is about reading consecutive fields in general), `Resp` and
`RedisConnections`, `HttpParser`, `HttpStreams` and `WrappingHead`, `RequestTexts` (what the parser and the connection
make of requests that are written out), `CacheKeys` and `RequestKeys`, `Patterns`, `CachePolicies`, `RuleStores`,
`Metrics`.
`Strings`, `Numbers`, `HttpHeaders`, `CacheEntries` and `Wrappers` are the vocabulary. A byte is a `char`.

## Where the code differs from its documentation, or a plausible claim is false

* "N concurrent misses collapse into exactly one origin fetch" (docs/DESIGN_DECISIONS.md:33-37) is false:
  `SecondFetch.TwoMissesTwoFetches`. It holds exactly for the runs in which nobody asks the registry for the key after
  its slot has been taken out for the first time: `Coalescing.LedAtMostOnce`, `Coalescing.ExactlyOneFetch`. What is true
  at every moment is `SingleFlight.OneFetchPerKey`, and over a whole run `Accounting.QuiescentAccounting` says how many
  fetches there are: misses plus stale hits, less those that were coalesced, rejected by the breaker or answered by L2.
* The branch that would serve a stale copy when the origin is down (proxy/src/RequestHandler.cpp:218-221) cannot be
  taken: `SingleFlight.OriginDownBranchIsDead`.
* A purge cannot recall a response in flight. It is permanent exactly when, at the moment L2 is evicted, no thread is on
  its way to store an old response, or to publish one to a thread that waits for it or can still come to wait for it:
  `PurgeExactness.PurgeIsPermanentExactly`. An old response that is merely being answered with does no harm, and neither
  does an old answer with status 500 or more, which no policy stores. The eviction is a loop, and the loop is enough
  exactly when no thread is about to write an old response to L2 as it starts: `ScanPurge.ScanCleansExactly`; what a
  thread has read from L2 while it was running counts when it ends: `ScanPurge.ScanPurgeExactly`.
* The shards' total can exceed the byte budget exactly when there are fewer bytes than shards, at least the 64 bytes of
  the smallest entry, and two keys that belong to different shards: `ShardingLaws.BudgetExactly`.
* The parser's outcome depends on how the stream was cut into pieces exactly when some good head is longer than 65533
  bytes, or some message with bytes behind its head has a length that wraps `size_t` around:
  `HttpStreams.ChunkingIndependence`. A head of the second kind is in `WrappingHead.OutcomeDependsOnTheCut`.
* An object read from L2 at or after its stamp is used for its lifetime exactly when its lifetime in milliseconds does
  not wrap around: `L2Freshness.WindowExactly`. A replica whose wall clock is behind the stamp counts nothing as elapsed
  and uses the object for its lifetime from then on, which by its own clock is over too early:
  `L2Freshness.ReadingExactly`.
* The window binds the promoted copy only. A request coalesced with the promoting one stores a copy that starts anew
  (proxy/src/RequestHandler.cpp:240-243): `LateCopy.CoalescedCopyOutlivesTheWindow`. Which L1 entries keep the window is
  told by their decoration: `L2Lineage.PromotedEntriesObeyTheWindow`.
* A smaller LRU cache always holds the most recent entries of a larger one exactly when no key has two sizes, nothing is
  swept and no get goes without a put when it misses: `InclusionLimits.InclusionExactly`. The proxy does all three. Two
  sizes or a sweep can also give the smaller cache more hits: `InclusionLimits.HitsExactly`; and so can such a get:
  `InclusionLimits.GetsCostHits`.
* A reply that does not arrive in time is given up, and the connection goes on in the middle of it unless it was given
  up on its first line: `Resp.CanBeTriedAgain`.
* docs/DESIGN_DECISIONS.md:6-16 describes cache shards owned by threads. The code has one sharded cache for all threads,
  indexed by key hash (proxy/src/cache/ShardedCache.cpp:20-23), and so has the model.

## Model

| member | source | states |
|---|---|---|
| InFlight.InFlightRegistry.Acquire | proxy/src/coalesce/InFlightRegistry.cpp:7-18 | the first caller for a key gets a new slot and leads; every other gets the slot in flight and is counted as coalesced |
| InFlight.InFlightRegistry.TakeOut | proxy/src/coalesce/InFlightRegistry.cpp:20-28 | first critical section of publish: the key's slot leaves the map, nothing else changes |
| InFlight.InFlightRegistry.MakeReady | proxy/src/coalesce/InFlightRegistry.cpp:29-35 | second critical section: the slot, and only it, gets the response and the flag and is ready |
| InFlight.InFlightRegistry.Publish | proxy/src/coalesce/InFlightRegistry.cpp:20-36 | the two in sequence; a key that is not in flight is ignored |
| SingleFlight.StepInv | proxy/src/RequestHandler.cpp:92-247 | every step of every thread keeps the ownership invariant of threads, slots and map |
| SingleFlight.RunInv | proxy/src/RequestHandler.cpp:92-247 | so does every run, with evictions and foreign writes to L2 in between |
| SingleFlight.OneOwnerPerKey | proxy/src/coalesce/InFlightRegistry.cpp:7-36 | in every reachable state a key is in flight iff some live thread owns it, one thread only, and the map holds that thread's slot |
| SingleFlight.PublishFindsOwnSlot | proxy/src/coalesce/InFlightRegistry.cpp:20-28 | publish never misses: it takes out the very slot the publisher acquired |
| SingleFlight.OneFetchPerKey | proxy/src/RequestHandler.cpp:188-213 | at most one coalesced origin fetch per key is in progress |
| SingleFlight.OnePublisherPerSlot | proxy/src/coalesce/InFlightRegistry.cpp:29-35 | a slot about to be made ready is not ready, and no other thread is about to do it |
| SingleFlight.ReadySlotIsFinal | proxy/src/coalesce/InFlightRegistry.cpp:29-35 | a ready slot never changes again in any continuation |
| SingleFlight.WaiterGetsLeadersResponse | proxy/src/RequestHandler.cpp:229-246 | a coalesced request answers with exactly its leader's response, and stores a copy only of a success |
| SingleFlight.OriginDownBranchIsDead | proxy/src/RequestHandler.cpp:216-221 | the origin-unavailable stale branch is never taken |
| SecondFetch.TwoMissesTwoFetches | proxy/src/RequestHandler.cpp:159-188 | a schedule of thread steps alone, with no failure, no eviction and overlapping requests, in which two misses of one key cost two origin fetches and none is coalesced |
| SecondFetch.MissThenHit | proxy/src/RequestHandler.cpp:159-232 | thread steps alone in which the same two requests make a miss, then a hit on what it stored, and one fetch |
| Coalescing.LedAtMostOnce | proxy/src/coalesce/InFlightRegistry.cpp:7-36 | in every run a key is led at most once iff nobody asks the registry for it after its slot was taken out for the first time |
| Coalescing.LeadershipsAreSettled | proxy/src/RequestHandler.cpp:188-246 | in a finished run every leadership of a key has come to one coalesced origin fetch, one rejection or one L2 hit |
| Coalescing.ExactlyOneFetch | docs/DESIGN_DECISIONS.md:33-37 | with no rejection and no L2 hit, a finished run has had exactly one coalesced fetch of a key iff the key was asked for and never late |
| Provenance.StepGenuine | proxy/src/RequestHandler.cpp:45-247 | no step of any thread lets content of one key into a thread, slot or cache entry of another |
| Provenance.ServedContentBelongsToKey | proxy/src/RequestHandler.cpp:138-247 | in every interleaving a request is answered with content its origin gives for its key, or with a body the proxy made |
| Answers.EveryAnswer | proxy/src/RequestHandler.cpp:138-247 | in every run every finished thread has been answered as its history says: PASS with its own fetched answer, or 502 or 503; a fresh or stale hit with what L1 had at its lookup; a leader with what L2 had, or its own fetched answer, or 502 or 503, each with its decoration; a revalidation publishes its own answer; and how often each has put something into L1 and L2 |
| Answers.EveryJoinedAnswer | proxy/src/RequestHandler.cpp:234-246 | a coalesced request is answered with the response that another thread for its key has published, decorated, and puts it into L1 iff that was a success, its own policy decision is to store it and the status is below 500 |
| Answers.EveryStore | proxy/src/RequestHandler.cpp:72-90 | in every reachable state, what a step leaves in L1: what L2 had, the thread's own answer or the shared one, stamped and with the lifetime decided on; no other step puts anything there |
| Answers.EverySecondStore | proxy/src/RequestHandler.cpp:81-90 | what a step leaves in L2: the thread's own answer with its lifetime, if Redis takes it and the lifetime is not 0; no other step writes to L2 |
| Accounting.RunBalanced | proxy/src/RequestHandler.cpp:45-70 | the counters, together with what the running threads still owe, balance at every point of every run |
| Accounting.QuiescentAccounting | proxy/src/RequestHandler.cpp:138-247 | when all is finished: hits + misses = requests; fetches + rejections + L2 hits + coalesced = misses + stale hits; stale hits <= hits; the breaker is not half-open |
| Accounting.RunningAccounting | proxy/src/metrics/MetricsRegistry.h:15-24 | the same laws as inequalities while requests are running |
| Tallies.ExactCounters | proxy/src/metrics/MetricsRegistry.h:15-24 | when all is finished, hits, misses, stale hits, fetches, errors, rejections, L2 hits and L2 misses are each the number of threads whose history has it |
| Progress.StepDescends | proxy/src/RequestHandler.cpp:92-247 | every step lowers a natural number, a spawned revalidation included |
| Progress.RunsAreBounded | proxy/src/RequestHandler.cpp:92-247 | n requests take at most 15 n accesses, whatever the schedule |
| Progress.NotStuck | proxy/src/coalesce/InFlightRegistry.h:23-26 | in every reachable unfinished state some thread can move |
| Progress.EveryRequestIsAnswered | proxy/src/RequestHandler.cpp:113-136 | a run that can go no further has answered every request |
| L2Origins.L2HoldsOriginAnswers | proxy/src/RequestHandler.cpp:81-90 | L2 only ever holds undecorated origin answers |
| L2Lineage.PromotedEntriesObeyTheWindow | proxy/src/RequestHandler.cpp:193-243 | in every reachable state an L1 entry whose content was read from L2 is decorated as an L2 hit, or is the origin answer itself, fresh for at least its ttl and less than a second longer, counted from its L2 stamp |
| LateCopy.CoalescedCopyOutlivesTheWindow | proxy/src/RequestHandler.cpp:234-246 | a run of thread steps, at all of which both clocks show nine seconds since the stamp, after which a coalesced copy of a ten-second object is fresh when 59 have passed |
| L2Freshness.PromotionWindow | proxy/src/redis/RedisL2Cache.cpp:126-133 | the remaining-lifetime arithmetic behind it, with both clocks advancing together |
| L2Freshness.StaleWindow | proxy/src/redis/RedisL2Cache.cpp:126-133 | a revived object keeps its payload and its grace period: it is serveable for ttl + swr from its stamp, and for less than a second more |
| L2Freshness.WindowExactly | proxy/src/redis/RedisL2Cache.cpp:126-133 | the window holds for all readings at or after the stamp iff ttl * 1000 does not wrap around |
| L2Freshness.ReadingExactly | proxy/src/redis/RedisL2Cache.cpp:126-133 | for a lifetime that does not wrap, a reading gives the window iff it is not before the stamp, or the object outlives the 146 years in which ages can be computed |
| L2Freshness.DroppedEarly | proxy/src/redis/RedisL2Cache.cpp:128 | every object whose ttl * 1000 wraps is dropped that much too early |
| CacheEntries.FreshWindow | proxy/src/cache/CacheEntry.h:29-36 | exactly when an entry is fresh or serveable stale, casts and truncation included |
| CircuitBreakers.CircuitBreaker.AllowRequest | proxy/src/origin/CircuitBreaker.cpp:7-32 | admits as the state demands and moves from open to half-open after the open time |
| CircuitBreakers.CircuitBreaker.RecordSuccess | proxy/src/origin/CircuitBreaker.cpp:34-41 | the state after a success |
| CircuitBreakers.CircuitBreaker.RecordFailure | proxy/src/origin/CircuitBreaker.cpp:43-53 | the state after a failure; when a failure opens the breaker is in `BreakerLaws.TurnsExactly` |
| BreakerLaws.NeverStranded | proxy/src/origin/CircuitBreaker.cpp:7-59 | half-open: all its probes are outstanding and number between 1 and max(1, maxProbes); closed: the failure run is below the threshold |
| BreakerLaws.HalfOpenResolves | proxy/src/origin/CircuitBreaker.cpp:34-59 | a half-open breaker has a live call of its epoch, whose result closes or opens it |
| BreakerLaws.AdmitsExactly | proxy/src/origin/CircuitBreaker.cpp:7-32 | in every reachable state an ask is admitted iff the breaker is closed, or has been open for a full period, or is half-open with fewer than maxProbes admitted in the epoch |
| BreakerLaws.TurnsExactly | proxy/src/origin/CircuitBreaker.cpp:34-59 | a success closes; a failure opens a half-open breaker, opens a closed one iff the failures since the last success now number the threshold or more, and leaves an open one as it is |
| BreakerLaws.OpensAtThreshold | proxy/src/origin/CircuitBreaker.cpp:43-53 | with threshold 1 or more, a closed breaker opens at exactly that many failures in a row |
| ReplicaBreaker.BreakerFollows | proxy/src/RequestHandler.cpp:45-70 | in every run a replica's breaker is in the state to which the asks and reports of its threads have brought it, each report telling whether the thread's own fetch was ok, and the calls live for it are the threads that are fetching |
| ReplicaBreaker.FetchesExactly | proxy/src/RequestHandler.cpp:45-58 | a thread that asks goes on to fetch iff the breaker is closed, open for a full period, or half-open with probes left |
| ReplicaBreaker.HalfOpenIsWatched | proxy/src/RequestHandler.cpp:58-68 | while a replica's breaker is half-open, some thread is fetching whose result will move it on |
| BreakerLaws.RateBound | proxy/src/origin/CircuitBreaker.cpp:7-59 | after opening and without a success, at most max(1, maxProbes) admissions per full open period, in every interleaving |
| FetchRate.FetchesAreLimited | proxy/src/RequestHandler.cpp:45-70 | once its breaker has opened and while no fetch succeeds, the threads of a replica start at most max(1, maxProbes) fetches per full open period |
| FleetPurge.ApplyPurged | control-plane/src/routes/purge.ts:26-39 | everything that can happen in the fleet after the L2 eviction keeps L2 and the purged L1s free of old copies |
| FleetPurge.ReachableFleetOk | proxy/src/RequestHandler.cpp:92-247 | every fleet that can be reached from replicas that have just started satisfies the invariant the purge results ask for |
| FleetPurge.PurgeStepsAreExact | control-plane/src/routes/purge.ts:26-39 | the purge steps remove what the pattern covers from L2 or from one L1, and nothing else |
| FleetPurge.PurgeIsPermanent | control-plane/src/routes/purge.ts:26-39 | if no thread is harmful when L2 is evicted, L2 never again has an old copy, and no L1 after it has handled the message, in every continuation; old answers with status 500 or more are harmless |
| PurgeExactness.PurgeIsPermanentExactly | control-plane/src/routes/purge.ts:26-39 | the purge is permanent in every continuation iff no thread is harmful when it begins |
| PurgeExactness.HolderUndoesPurge | proxy/src/RequestHandler.cpp:190-246 | from every harmful thread there is a continuation that brings the old copy back, though the replica has handled the message |
| ScanPurge.ScanCleansExactly | control-plane/src/redis/coordinator.ts:77-98 | for every order of reports and everything in between, no old object is left in L2 when the loop ends iff no thread is on its way to write one when it starts |
| ScanPurge.ScanPurgeExactly | control-plane/src/routes/purge.ts:26-39 | after such a loop, L2 stays clean, and every L1 from when it handles the message, in every continuation iff no thread is harmful when the loop ends |
| FleetPurge.PurgedContentIsNeverServed | proxy/src/redis/RedisCoordinator.cpp:100-108 | a request that starts after its replica has handled the purge is never answered with old content, if no old answer of any status was in flight to others when L2 was evicted |
| FleetPurge.SwappedOrderKeepsOldCopy | control-plane/src/routes/purge.ts:29-39 | with L1 purged before L2, a request in between brings the old copy back |
| L2Purges.L2Tier.PurgeL2 | control-plane/src/redis/coordinator.ts:80-98 | the SCAN loop: final tier and returned count, for any replies and any changes in between |
| L2Purges.Leftovers | control-plane/src/redis/coordinator.ts:80-98 | a matching object that is left was written meanwhile, or was never reported and never expired |
| L2Purges.OnlyNewIsLeft | control-plane/src/redis/coordinator.ts:77-98 | with SCAN's coverage promise, every matching object that is left was written while the purge was running |
| L2Purges.OthersUndisturbed | control-plane/src/redis/coordinator.ts:92 | objects that do not match fare as if there were no purge |
| L2Purges.CountIsExact | control-plane/src/redis/coordinator.ts:93-97 | with no other activity the count is the number of objects removed, repeated reports notwithstanding |
| PurgeDelivery.MessageArrives | proxy/src/redis/RedisCoordinator.cpp:94-103 | what is published on a channel reaches the subscriber byte for byte, as a message on that channel and on no other |
| PurgeDelivery.Subscriber.OnMessage | proxy/src/redis/RedisCoordinator.cpp:100-112 | a three-element message on the purge channel removes exactly the covered objects from all shards; one on the rule channel, if that is another, requests a reload and leaves the cache; any other reply changes nothing |
| PurgeDelivery.Subscriber.Receive | proxy/src/redis/RedisCoordinator.cpp:94-112 | what is published on the purge channel purges its payload; on the rule channel it requests a reload; on any other it does nothing; and what follows it on the connection is left |
| LruLists.FitIsLongest | proxy/src/cache/LRUCache.cpp:59-67 | eviction leaves the longest most-recent-first prefix that fits |
| LruLaws.SizeCounts | proxy/src/cache/CacheEntry.h:23-27 | an entry counts for 64 bytes, 8 for each header, and one for each byte of its strings |
| LruCaches.LruCache.Get | proxy/src/cache/LRUCache.cpp:31-38 | returns the entry and makes it most recent; list, index and counter go on agreeing |
| LruCaches.LruCache.Put | proxy/src/cache/LRUCache.cpp:40-57 | the new entry in front, then eviction to the budget; evictions counted exactly |
| LruCaches.LruCache.EvictToFit | proxy/src/cache/LRUCache.cpp:59-67 | the loop computes that prefix, and the counter is within budget afterwards |
| LruCaches.LruCache.Erase | proxy/src/cache/LRUCache.cpp:69-77 | removes the key, and says whether it was there |
| LruCaches.LruCache.RemoveUnless | proxy/src/cache/LRUCache.cpp:82-92 | the removing pass keeps exactly the wanted entries, in order, and counts the others |
| LruCaches.LruCache.Purge | proxy/src/cache/LRUCache.cpp:79-93 | removes exactly the entries the pattern covers |
| LruCaches.LruCache.SweepExpired | proxy/src/cache/LRUCache.cpp:95-110 | removes exactly the entries that are no longer serveable |
| LruLaws.SweepKeepsExactly | proxy/src/cache/LRUCache.cpp:95-110 | what a sweep leaves, as a time window: exactly the entries whose ttl and grace period are not over |
| LruCaches.LruCache.SizeInBytes | proxy/src/cache/LRUCache.cpp:112-115 | the counter is the sum of the entries' sizes and within budget |
| LruCaches.LruCache.Count | proxy/src/cache/LRUCache.cpp:117-120 | the index has as many keys as the list has entries |
| LruLaws.AlwaysSound | proxy/src/cache/LRUCache.cpp:31-110 | no key twice and total within budget, after any operations |
| LruLaws.StoreOutcome | proxy/src/cache/LRUCache.cpp:40-67 | put leaves the cache empty iff the entry alone exceeds the budget; otherwise the entry is there |
| LruLaws.Inclusion | proxy/src/cache/LRUCache.cpp:31-93 | of two budgets, the smaller cache's list stays a prefix of the larger's, and the larger has at least as many hits, from any two such lists on |
| InclusionLimits.InclusionExactly | proxy/src/cache/LRUCache.cpp:31-110 | for all budgets and operations permitted, the smaller cache's list is a prefix of the larger's iff no key has two sizes, nothing is swept and no get goes without its put |
| InclusionLimits.HitsExactly | proxy/src/cache/LRUCache.cpp:31-110 | of operations without bare gets, the larger cache always has at least as many hits iff no key has two sizes and nothing is swept |
| InclusionLimits.GetsCostHits | proxy/src/RequestHandler.cpp:159-213 | a run with one size per key and a get that stores nothing in which the smaller cache has more hits |
| LruLaws.StoreIsAssignment | proxy/src/cache/LRUCache.cpp:40-67 | put is a map assignment followed by dropping some keys, which is how the protocol model sees it |
| LruLaws.TouchIsIdentity | proxy/src/cache/LRUCache.cpp:31-38 | get does not change that map |
| ShardingLaws.ShardedStoreIsAssignment | proxy/src/cache/ShardedCache.cpp:25-31 | the same of the union of all shards: put is an assignment followed by dropping some keys |
| ShardingLaws.ShardedPurgeSpares | proxy/src/cache/ShardedCache.cpp:35-39 | a purge of the sharded cache is the purge step of the fleet model: the union loses exactly the covered objects |
| ShardingLaws.ShardedTouchIsIdentity | proxy/src/cache/ShardedCache.cpp:25-28 | and get does not change the union |
| ShardedCaches.ShardedCache.Put | proxy/src/cache/ShardedCache.cpp:20-31 | changes the shard of the key's hash, and no other |
| ShardedCaches.ShardedCache.Purge | proxy/src/cache/ShardedCache.cpp:35-39 | purges every shard and returns the number removed in all |
| ShardedCaches.ShardedCache.SweepExpired | proxy/src/cache/ShardedCache.cpp:41-45 | sweeps every shard and returns the number removed in all |
| ShardedCaches.ShardedCache.SizeInBytes | proxy/src/cache/ShardedCache.cpp:47-51 | the sum over the shards |
| ShardingLaws.ShardsAreIndependent | proxy/src/cache/ShardedCache.cpp:20-45 | each shard is an LRU cache fed its own keys' operations and the broadcasts |
| ShardingLaws.AlwaysRouted | proxy/src/cache/ShardedCache.cpp:20-23 | every key is in the shard of its hash, hence in one only |
| ShardingLaws.PurgeRemovesExactlyMatches | proxy/src/cache/ShardedCache.cpp:35-39 | a purge removes exactly the covered keys of the union |
| ShardingLaws.WithinBudget | proxy/src/cache/ShardedCache.cpp:10-18 | the total stays within maxBytes if maxBytes is at least the number of shards; that the bytes are really given out is in `ShardingLaws.CapacityIsUsed` |
| ShardingLaws.BudgetExactly | proxy/src/cache/ShardedCache.cpp:10-18 | the total stays within maxBytes in every run iff there is a byte per shard, or fewer bytes than any entry has, or all keys belong to one shard |
| ShardingLaws.CapacityIsUsed | proxy/src/cache/ShardedCache.cpp:12-31 | for every b with b bytes for each shard, whatever was done before: an entry of at most b bytes is in the shard of its hash right after its put, nothing else leaves that shard if it then totals at most b, and the other shards do not change |
| L2Blob.Serialize | proxy/src/redis/RedisL2Cache.cpp:24-40 | writes the blob text of the entry |
| L2Blob.Deserialize | proxy/src/redis/RedisL2Cache.cpp:42-103 | reads what ReadBlob defines, or fails exactly where that does |
| L2Blob.RoundTrip | proxy/src/redis/RedisL2Cache.cpp:24-103 | for every entry and suffix, reading gives back all fields and stops at the end of the blob; negative statuses and arbitrary bytes included |
| L2Blob.PrefixRejected | proxy/src/redis/RedisL2Cache.cpp:42-103 | every proper prefix of a blob is refused |
| FieldLists.FieldsRead | proxy/src/redis/RedisL2Cache.cpp:45-78 | consecutive fields are read back in order, whatever follows them |
| FieldLists.FieldsCut | proxy/src/redis/RedisL2Cache.cpp:45-78 | consecutive fields cut short anywhere are refused |
| Numbers.StoullOfNat | proxy/src/redis/RedisL2Cache.cpp:52-61 | decimal text is read back as the number written |
| Numbers.StoullReads | proxy/src/http/Http.cpp:139-145 | reading any text of white space, sign, digits and what follows: no digits or 2^64 and more fail, a minus sign negates modulo 2^64 |
| Numbers.StrtollReads | proxy/src/redis/RedisClient.cpp:150-164 | the same for strtoll: no digits give 0, and numbers out of range the nearest one in it |
| HttpHeaders.AssignOrdered | proxy/src/http/Http.cpp:12-18 | assigning a header keeps the map ordered by case-insensitive name |
| HttpHeaders.AssignLookup | proxy/src/http/Http.cpp:50-53 | looking up a header after an assignment, for equal and for other names |
| Resp.Encode | proxy/src/redis/RedisClient.cpp:18-26 | writes a command as an array of bulk strings |
| Resp.ParsesBack | proxy/src/redis/RedisClient.cpp:135-179 | every reply, nested to any depth, is parsed back from its text and exactly consumed |
| Resp.NullReplies | proxy/src/redis/RedisClient.cpp:154-169 | a negative length or count is the null reply |
| Resp.NoReply | proxy/src/redis/RedisClient.cpp:137-177 | an empty line or one that starts with none of the five marks is no reply |
| Resp.CutIsNotParsed | proxy/src/redis/RedisClient.cpp:114-179 | a reply that has not arrived completely is never taken for a complete one |
| Resp.ReplyStays | proxy/src/redis/RedisClient.cpp:114-179 | what is parsed from the bytes at hand is what is parsed from the whole stream, and what follows it is left |
| Resp.CanBeTriedAgain | proxy/src/redis/RedisClient.cpp:83-179 | an unsuccessful parse leaves the stream as it was iff it was given up on the first line |
| Resp.CommandParsesBack | proxy/src/redis/RedisClient.cpp:18-26 | what encode writes is parsed back as the arguments in order, for arbitrary bytes |
| RedisConnections.RedisConnection.FillBuffer | proxy/src/redis/RedisClient.cpp:83-112 | receiving and compacting the buffer do not change the unread bytes; a timeout or an interrupted call changes nothing; the peer's closing or a failure closes |
| RedisConnections.RedisConnection.ReadLine | proxy/src/redis/RedisClient.cpp:114-124 | takes the next line of what arrives before the next timeout, however it arrives, and otherwise nothing |
| RedisConnections.RedisConnection.ReadN | proxy/src/redis/RedisClient.cpp:126-133 | takes the next n bytes and the two behind them, however they arrive, and otherwise nothing |
| RedisConnections.RedisConnection.ParseReply | proxy/src/redis/RedisClient.cpp:135-179 | succeeds exactly when Resp.ParseReply does on what arrives before the next timeout, with the same reply, for any pieces and any compaction; otherwise says what is left of the stream |
| HttpParser.RequestParser.Feed | proxy/src/http/Http.cpp:99 | appends to the buffer |
| HttpParser.RequestParser.ParseHeaders | proxy/src/http/Http.cpp:125-134 | the header loop: lines up to the first empty one, trimmed, later ones winning |
| HttpParser.RequestParser.Parse | proxy/src/http/Http.cpp:102-163 | NeedMore, Error or the request, and the buffer without its bytes |
| HttpParser.HeadOfPrefix | proxy/src/http/Http.cpp:104-145 | what is known about a head does not change when more bytes arrive |
| HttpParser.SplitsAtMark | proxy/src/http/Http.cpp:152-159 | every target is path, or path, question mark and query, with no question mark in the path |
| RequestTexts.MessageOutcome | proxy/src/http/Http.cpp:102-163 | for every request line and header lines, whatever blanks and useless lines they have, and any bytes behind them: an error with a Transfer-Encoding or a Content-Length that is no number; otherwise the request once its body is there, with the words, target split, last value of every header in any case, body and keep-alive that were written |
| RequestTexts.RequestComesBack | proxy/src/http/Http.cpp:102-163 | round trip: verb, target, version, distinct headers and body written out are parsed back, all of them and nothing else, and what follows is left |
| RequestTexts.EndlessHead | proxy/src/http/Http.cpp:104-109 | without an empty line: more bytes are awaited up to 65536, and beyond that it is an error |
| RequestTexts.ShortRequestLine | proxy/src/http/Http.cpp:115-123 | a request line of fewer than three words is an error |
| RequestTexts.PipelinedRequests | proxy/src/net/EventLoop.cpp:76-93 | any number of requests in a row on a connection that stays open are handed over in order, each as it was written, and then the rest is looked at afresh |
| RequestTexts.ClosingRequest | proxy/src/net/EventLoop.cpp:76-93 | the first request that does not keep the connection open is the last one handed over |
| HttpStreams.DrainPart | proxy/src/net/EventLoop.cpp:76-93 | the requests taken out of a part of the stream are those that are complete in it, and the rest goes on as if uncut |
| HttpStreams.SteadyIsIndependent | proxy/src/http/Http.cpp:104-151 | for any recogniser of heads that is stable under more bytes: every cut gives the uncut outcome iff every good head has room and no message with bytes behind its head wraps |
| HttpStreams.ChunkingIndependence | proxy/src/http/Http.cpp:99-163 | the same for the proxy and every stream: same requests, leftover and verdict for every cut iff no good head exceeds 65533 bytes and no such length wraps |
| WrappingHead.OutcomeDependsOnTheCut | proxy/src/http/Http.cpp:139-148 | a head with Content-Length -1 is accepted, and with anything behind it the outcome depends on the cut |
| HttpStreams.Connection.OnReadable | proxy/src/net/EventLoop.cpp:58-93 | when the drain loop ends, it has handed over the requests that Drain defines and leaves the bytes it leaves |
| HttpStreams.LoopEnds | proxy/src/net/EventLoop.cpp:76-93 | the drain loop ends after some number of turns iff it meets no kept-alive message that takes no bytes |
| CacheKeys.NormalizeQuery | proxy/src/cache/CacheKey.cpp:11-26 | split, sort and join compute the normal form |
| CacheKeys.FromRequest | proxy/src/cache/CacheKey.cpp:28-43 | the text of the key |
| CacheKeys.NormalFormIsCanonical | proxy/src/cache/CacheKey.cpp:11-26 | equal normal forms iff the same non-empty parameters with the same multiplicities |
| CacheKeys.NormalizeIdempotent | proxy/src/cache/CacheKey.cpp:11-26 | normalising twice changes nothing more |
| CacheKeys.KeyIsCanonical | proxy/src/cache/CacheKey.cpp:28-43 | equal keys iff method, host, path and parameters agree |
| RequestKeys.KeysAreExact | proxy/src/cache/CacheKey.cpp:28-43 | two GET or HEAD requests as they stand in the bytes, to the one configured origin, have equal keys iff method, path of the target and parameters of the target's query agree |
| Patterns.PathOfRequestKey | proxy/src/cache/LRUCache.cpp:9-18 | the path extracted from a request's key is the request's path |
| Patterns.MatchersAgree | control-plane/src/redis/coordinator.ts:63-75 | on a request's key, the L1 matcher, the L2 matcher and the rule matcher agree for every pattern |
| Patterns.MatchersAgreeExactly | proxy/src/cache/LRUCache.cpp:9-29 | on any string the L1 and L2 matchers agree for every pattern iff it has two bars, as every key has, or no question mark |
| Patterns.RulesGlob | proxy/src/redis/RuleStore.cpp:9-16 | a rule pattern covers its own text, any continuation of what stands before a star at its end, and everything if it is * or /* |
| CachePolicies.HasDirective | proxy/src/policy/CachePolicy.cpp:17-43 | true iff a delimited occurrence exists anywhere, with the value of the first |
| CachePolicies.NothingSkipped | proxy/src/policy/CachePolicy.cpp:40 | skipping to the end of an occurrence skips no delimited one |
| CachePolicies.Decide | proxy/src/policy/CachePolicy.cpp:59-105 | cacheable iff the status is 200, 203, 204, 301 or 404, no delimited no-store, private or no-cache is there and the lifetime asked for is not 0; for how long, and with which reason |
| RuleStores.RuleStore.ReplaceAll | proxy/src/redis/RuleStore.cpp:18-26 | the same rules, longest pattern first |
| RuleStores.RuleStore.Match | proxy/src/redis/RuleStore.cpp:28-34 | a covering rule of maximal pattern length, or none iff none covers the path |
| RuleStores.DecideWithRules | proxy/src/policy/RuleOverridePolicy.h:12-34 | a governing rule decides whatever the headers say, server errors excepted; without one the headers decide |
| RuleStores.GovernorsTie | proxy/src/redis/RuleStore.cpp:18-34 | the order of listing matters only among patterns of equal length |
| Metrics.Histogram.Observe | proxy/src/metrics/MetricsRegistry.cpp:9-16 | each bucket counts the observations up to its bound; count and sum are those of all |
| Metrics.AtMostCounts | proxy/src/metrics/MetricsRegistry.cpp:9-16 | what a bucket holds is how many observations do not exceed its bound |
| Metrics.Cumulative | proxy/src/metrics/MetricsRegistry.cpp:11-13 | the buckets are cumulative |

## Left out

- RequestMachine.Step: models RequestHandler as a step function on values rather than as an object, because steps of different threads interleave; the objects it uses (registry, breaker, caches) are classes proved against the same functions.
- RequestMachine.L1After: the protocol sees L1 as a map whose put may also drop any other keys; `LruLaws.StoreIsAssignment` and `ShardingLaws.ShardedStoreIsAssignment` say that this covers the LRU cache and its shards.
- FleetPurge.PurgeIsPermanent: takes the L2 eviction as one step; `ScanPurge` does not. Both purge steps use the L1 matcher, which agrees with the L2 matcher on request keys (`Patterns.MatchersAgree`). Delivery is one event per replica; lost messages and a failed L2 eviction are not in it.
- PurgeExactness.PurgeIsPermanentExactly: the same holds of it. Any answer with a status below 500 may be stored, since a rule that covers its path may be loaded at any time.
- L2Lineage.PromotedEntriesObeyTheWindow: assumes that the two clocks advance together, that no object is read before its stamp and that no ttl * 1000 wraps when one is read, and speaks of the 146 years after an entry was stored; `L2Freshness.ReadingExactly` and `L2Freshness.WindowExactly` have what is lost otherwise.
- Coalescing.ExactlyOneFetch: counts coalesced fetches; requests that bypass the cache fetch on their own.
- LruLaws.Inclusion: entry sizes are fixed per key, and there are no sweeps and no get that stores nothing after a miss; `InclusionLimits.InclusionExactly` says that this is what it takes.
- InclusionLimits.HitsExactly: says nothing of rules with bare gets, of which there is only the run in `InclusionLimits.GetsCostHits`.
- InclusionLimits.InclusionExactly: the rules give every pair of sizes that some key may have to four keys at least; with fewer keys the condition is sufficient, but not shown to be necessary.
- RedisConnections.RedisConnection.ParseReply: memory exhaustion by a large array count is not modelled; the buffer's contents after the connection has been closed are not stated.
- Metrics.Histogram.Observe: the sum is over exact reals, where the original adds doubles and may round.
- LruCaches.LruCache.RemoveUnless: purge and sweepExpired have the same loop in the original, written twice; list iterators are natural-number handles.
- RuleStores.SortByLength: stands for std::sort, of which only order and permutation are used.
- CacheKeys.Sort: stands for std::sort on strings, whose result is unique.
- HttpStreams.Connection.OnReadable: a connection counts as closed once the loop has decided to close it; that the bytes still have to be flushed is not modelled. Buffers on which the original never leaves the loop are excluded by requires; `HttpStreams.LoopEnds` says that these are exactly the ones with verdict `Looping`.
- The counter consecutiveFailures and the atomic counters are unbounded integers; so are sums of sizes in the LRU cache.
- The hash function of the shards is a parameter; std::hash is not modelled.
- TypeScript strings are sequences of bytes here, so UTF-16 is not modelled; patterns and keys are compared byte for byte.
- The X-Cache, Age and tier headers are a tag on the response; HttpResponse::serialize and the Age computation are not modelled.
- PurgeDelivery leaves out the audit entry and the HTTP responses of the purge route, and reconnecting.
- Sockets, epoll, DNS, connection timeouts, the origin client, configuration, Prometheus rendering, access log, Express routes, schemas, authentication, SQL and migrations are input/output or thin glue.
- The mirror of rules from Postgres to Redis is not modelled; an edited pattern leaves its old field behind (control-plane/src/routes/rules.ts:46-54), so an equality would be false.
- RedisCoordinator's JSON parsing of rules and its poller only build values from replies.
