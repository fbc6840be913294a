// What the sharded cache is as a whole, for every operation sequence.
module ShardingLaws {
  import opened Wrappers
  import opened CacheEntries
  import opened HttpHeaders
  import opened LruLists
  import opened LruLaws
  import opened ShardedCaches
  import Patterns

  predicate Broadcast(op: Op) {
    op.Purge? || op.Sweep?
  }

  // The state after one of ShardedCache's operations.
  function DoSharded(shards: seq<seq<Item>>, op: Op, hash: Hash, budget: nat): (r: seq<seq<Item>>)
    requires |shards| > 0
    ensures |r| == |shards|
  {
    if Broadcast(op) then seq(|shards|, i requires 0 <= i < |shards| => Do(shards[i], op, budget))
    else
      var s := Route(hash, |shards|, op.key);
      shards[s := Do(shards[s], op, budget)]
  }

  function DoAllSharded(shards: seq<seq<Item>>, ops: seq<Op>, hash: Hash, budget: nat): (r: seq<seq<Item>>)
    requires |shards| > 0
    ensures |r| == |shards|
    decreases |ops|
  {
    if ops == [] then shards else DoAllSharded(DoSharded(shards, ops[0], hash, budget), ops[1..], hash, budget)
  }

  // The operations one shard sees: those on its keys, and the broadcasts.
  function Project(ops: seq<Op>, hash: Hash, n: nat, s: nat): seq<Op>
    requires n > 0
  {
    if ops == [] then []
    else if Broadcast(ops[0]) || Route(hash, n, ops[0].key) == s then [ops[0]] + Project(ops[1..], hash, n, s)
    else Project(ops[1..], hash, n, s)
  }

  // The shards are independent LRU caches, each fed its own operations in order.
  lemma {:induction false} ShardsAreIndependent(shards: seq<seq<Item>>, ops: seq<Op>, hash: Hash, budget: nat, s: nat)
    requires s < |shards|
    ensures DoAllSharded(shards, ops, hash, budget)[s] == DoAll(shards[s], Project(ops, hash, |shards|, s), budget)
    decreases |ops|
  {
    if ops != [] {
      var next := DoSharded(shards, ops[0], hash, budget);
      ShardsAreIndependent(next, ops[1..], hash, budget, s);
      var mine := Project(ops, hash, |shards|, s);
      var rest := Project(ops[1..], hash, |shards|, s);
      if Broadcast(ops[0]) || Route(hash, |shards|, ops[0].key) == s {
        assert mine[0] == ops[0] && mine[1..] == rest;
      }
    }
  }

  // A key is only ever in its own shard.
  ghost predicate Routed(shards: seq<seq<Item>>, hash: Hash) {
    forall s, i :: 0 <= s < |shards| && 0 <= i < |shards[s]| ==> Route(hash, |shards|, shards[s][i].key) == s
  }

  predicate AllRoute(items: seq<Item>, hash: Hash, n: nat, s: nat)
    requires n > 0
  {
    forall i :: 0 <= i < |items| ==> Route(hash, n, items[i].key) == s
  }

  lemma KeepRoutes(items: seq<Item>, p: Item -> bool, hash: Hash, n: nat, s: nat)
    requires n > 0 && AllRoute(items, hash, n, s)
    ensures AllRoute(Keep(items, p), hash, n, s)
  {
    KeepIn(items, p);
    forall i | 0 <= i < |Keep(items, p)| ensures Route(hash, n, Keep(items, p)[i].key) == s {
      assert Keep(items, p)[i] in items;
    }
  }

  lemma FitRoutes(items: seq<Item>, budget: nat, hash: Hash, n: nat, s: nat)
    requires n > 0 && AllRoute(items, hash, n, s)
    ensures AllRoute(Fit(items, budget), hash, n, s)
  {
    FitIsLongest(items, budget);
    var f := Fit(items, budget);
    assert forall i :: 0 <= i < |f| ==> f[i] == items[i];
  }

  lemma StoreRoutes(items: seq<Item>, key: string, entry: Entry, budget: nat, hash: Hash, n: nat, s: nat)
    requires n > 0 && AllRoute(items, hash, n, s) && Route(hash, n, key) == s
    ensures AllRoute(Stored(items, key, entry, budget), hash, n, s)
    ensures AllRoute(Without(items, key), hash, n, s)
  {
    KeepRoutes(items, (x: Item) => x.key != key, hash, n, s);
    FitRoutes([Item(key, entry, SizeBytes(entry.payload))] + Without(items, key), budget, hash, n, s);
  }

  lemma DoRoutes(items: seq<Item>, op: Op, budget: nat, hash: Hash, n: nat, s: nat)
    requires n > 0 && AllRoute(items, hash, n, s)
    requires Broadcast(op) || Route(hash, n, op.key) == s
    ensures AllRoute(Do(items, op, budget), hash, n, s)
  {
    match op
    case Purge(pattern) => KeepRoutes(items, Uncovered(pattern), hash, n, s);
    case Sweep(now) => KeepRoutes(items, Unexpired(now), hash, n, s);
    case Get(key) => KeepRoutes(items, (x: Item) => x.key != key, hash, n, s);
    case Erase(key) => KeepRoutes(items, (x: Item) => x.key != key, hash, n, s);
    case Access(key, entry) => StoreRoutes(items, key, entry, budget, hash, n, s);
    case Put(key, entry) => StoreRoutes(items, key, entry, budget, hash, n, s);
  }

  lemma {:induction false} AlwaysRouted(shards: seq<seq<Item>>, ops: seq<Op>, hash: Hash, budget: nat)
    requires |shards| > 0 && Routed(shards, hash)
    ensures Routed(DoAllSharded(shards, ops, hash, budget), hash)
    decreases |ops|
  {
    if ops != [] {
      var next := DoSharded(shards, ops[0], hash, budget);
      forall s | 0 <= s < |next| ensures AllRoute(next[s], hash, |next|, s) {
        assert AllRoute(shards[s], hash, |shards|, s);
        if Broadcast(ops[0]) || Route(hash, |shards|, ops[0].key) == s {
          DoRoutes(shards[s], ops[0], budget, hash, |shards|, s);
        }
      }
      AlwaysRouted(next, ops[1..], hash, budget);
    }
  }

  // After a purge, what is left in each shard is what it had that the pattern does not cover.
  lemma PurgeRemovesExactlyMatches(shards: seq<seq<Item>>, pattern: string, hash: Hash, budget: nat, s: nat, x: Item)
    requires s < |shards|
    ensures x in DoSharded(shards, Purge(pattern), hash, budget)[s]
            <==> x in shards[s] && !Patterns.PurgeMatches(pattern, x.key)
  {
    KeepIn(shards[s], Uncovered(pattern));
  }

  lemma {:induction false} TotalBound(shards: seq<seq<Item>>, budget: nat)
    requires forall s :: 0 <= s < |shards| ==> Total(shards[s]) <= budget
    ensures TotalAll(shards) <= |shards| * budget
  {
    if shards != [] {
      TotalBound(shards[1..], budget);
      MulStep(|shards|, budget);
    }
  }

  lemma MulStep(n: nat, b: nat)
    requires n > 0
    ensures n * b == b + (n - 1) * b
  {
  }

  lemma MulDiv(maxBytes: nat, n: nat)
    requires n > 0
    ensures n * (maxBytes / n) <= maxBytes
  {
  }

  function Empty(n: nat): seq<seq<Item>> {
    seq(n, _ => [])
  }

  // The whole cache stays within its budget when the budget is at least one byte per shard.
  lemma WithinBudget(maxBytes: nat, n: nat, ops: seq<Op>, hash: Hash)
    requires 0 < n <= maxBytes
    ensures TotalAll(DoAllSharded(Empty(n), ops, hash, PerShard(maxBytes, n))) <= maxBytes
  {
    var budget := PerShard(maxBytes, n);
    var shards := DoAllSharded(Empty(n), ops, hash, budget);
    forall s | 0 <= s < n ensures Total(shards[s]) <= budget {
      ShardsAreIndependent(Empty(n), ops, hash, budget, s);
      AlwaysSound([], Project(ops, hash, n, s), budget);
    }
    TotalBound(shards, budget);
    MulDiv(maxBytes, n);
    assert maxBytes / n >= 1;
  }

  // ---------------------------------------------------------------------------------------------
  // Each shard has its share of the budget.

  lemma {:induction false} FitsWhole(items: seq<Item>, budget: int)
    requires Total(items) <= budget
    ensures Fit(items, budget) == items
  {
    if items != [] {
      FitsWhole(items[1..], budget - items[0].bytes);
    }
  }

  lemma ProductOrder(n: nat, x: nat, y: nat)
    requires n * x < n * y
    ensures x < y
  {
  }

  lemma ShareIsThere(maxBytes: nat, n: nat, b: nat)
    requires n > 0 && n * b <= maxBytes
    ensures b <= PerShard(maxBytes, n)
  {
    assert n * (maxBytes / n + 1) > maxBytes;
    ProductOrder(n, b, maxBytes / n + 1);
  }

  // With b bytes for every shard, whatever has been done before: an entry of at most b bytes is found in its key's
  // shard after it has been put, and the other entries of that shard stay if together with it they have at most b
  // bytes.
  lemma CapacityIsUsed(maxBytes: nat, n: nat, b: nat, hash: Hash, ops: seq<Op>, key: string, entry: Entry)
    requires n > 0 && n * b <= maxBytes && SizeBytes(entry.payload) <= b
    ensures var budget := PerShard(maxBytes, n);
            var before := DoAllSharded(Empty(n), ops, hash, budget);
            var after := DoSharded(before, Put(key, entry), hash, budget);
            var s := hash(key) % n;
            && ItemOf(after[s], key) == Some(Item(key, entry, SizeBytes(entry.payload)))
            && (Total(Without(before[s], key)) + SizeBytes(entry.payload) <= b ==>
                  after[s] == [Item(key, entry, SizeBytes(entry.payload))] + Without(before[s], key))
            && forall t :: 0 <= t < n && t != s ==> after[t] == before[t]
  {
    var budget := PerShard(maxBytes, n);
    ShareIsThere(maxBytes, n, b);
    var s := hash(key) % n;
    var before := DoAllSharded(Empty(n), ops, hash, budget);
    StoreOutcome(before[s], key, entry, budget);
    var x := Item(key, entry, SizeBytes(entry.payload));
    if Total(Without(before[s], key)) + x.bytes <= b {
      assert ([x] + Without(before[s], key))[1..] == Without(before[s], key);
      FitsWhole([x] + Without(before[s], key), budget);
    }
  }

  // ---------------------------------------------------------------------------------------------
  // With fewer bytes than shards every shard gets the whole budget. Whether that can be exceeded depends on whether
  // anything can be stored at all, and in more than one shard.

  const SMALLEST: nat := 64

  // An entry of any size from the smallest on.
  function Sized(bytes: nat): Entry
    requires bytes >= SMALLEST
  {
    CacheEntry(Payload(200, "", [], seq(bytes - SMALLEST, _ => 'x'), ""), 0, 60, 0)
  }

  lemma SizedBytes(bytes: nat)
    requires bytes >= SMALLEST
    ensures SizeBytes(Sized(bytes).payload) == bytes
  {
  }

  // Two entries that take the whole budget each, in different shards.
  lemma TwoExceed(maxBytes: nat, n: nat, hash: Hash, a: string, b: string)
    requires SMALLEST <= maxBytes < n && Route(hash, n, a) != Route(hash, n, b)
    ensures var e := Sized(maxBytes);
            TotalAll(DoAllSharded(Empty(n), [Put(a, e), Put(b, e)], hash, PerShard(maxBytes, n))) > maxBytes
  {
    var e := Sized(maxBytes);
    SizedBytes(maxBytes);
    var ops := [Put(a, e), Put(b, e)];
    var budget := PerShard(maxBytes, n);
    assert maxBytes / n == 0;
    assert ops[1..] == [Put(b, e)] && ops[1..][1..] == [];
    var one := DoSharded(Empty(n), ops[0], hash, budget);
    var two := DoSharded(one, ops[1], hash, budget);
    var sa := Route(hash, n, a);
    var sb := Route(hash, n, b);
    StoreAlone(a, e, budget);
    StoreAlone(b, e, budget);
    assert two[sa] == Stored([], a, e, budget) && two[sb] == Stored([], b, e, budget);
    assert DoAllSharded(one, ops[1..], hash, budget) == DoAllSharded(two, ops[1..][1..], hash, budget) == two;
    assert DoAllSharded(Empty(n), ops, hash, budget) == two;
    TotalAtLeast(two, sa, sb);
  }

  // A shard whose budget is below the smallest entry stays empty.
  lemma NothingFits(ops: seq<Op>, budget: nat)
    requires budget < SMALLEST
    ensures DoAll([], ops, budget) == []
  {
    AlwaysSound([], ops, budget);
    NoSmaller(DoAll([], ops, budget));
  }

  lemma NoSmaller(items: seq<Item>)
    requires Measured(items)
    ensures items == [] || Total(items) >= SMALLEST
  {
  }

  lemma {:induction false} TotalOfEmpty(shards: seq<seq<Item>>)
    requires forall s :: 0 <= s < |shards| ==> shards[s] == []
    ensures TotalAll(shards) == 0
  {
    if shards != [] {
      TotalOfEmpty(shards[1..]);
    }
  }

  lemma {:induction false} TotalOfOne(shards: seq<seq<Item>>, only: nat)
    requires only < |shards| && forall s :: 0 <= s < |shards| && s != only ==> shards[s] == []
    ensures TotalAll(shards) == Total(shards[only])
  {
    if only == 0 {
      TotalOfEmpty(shards[1..]);
    } else {
      TotalOfOne(shards[1..], only - 1);
    }
  }

  ghost predicate OneShardOnly(hash: Hash, n: nat)
    requires n > 0
  {
    forall a, b :: Route(hash, n, a) == Route(hash, n, b)
  }

  lemma OneShardBounded(maxBytes: nat, n: nat, ops: seq<Op>, hash: Hash)
    requires maxBytes < n && OneShardOnly(hash, n)
    ensures TotalAll(DoAllSharded(Empty(n), ops, hash, PerShard(maxBytes, n))) <= maxBytes
  {
    assert maxBytes / n == 0;
    var shards: seq<seq<Item>> := DoAllSharded(Empty(n), ops, hash, maxBytes);
    AlwaysRouted(Empty(n), ops, hash, maxBytes);
    var only := Route(hash, n, "");
    forall s | 0 <= s < n && s != only ensures shards[s] == [] {
      var key := if |shards[s]| > 0 then shards[s][0].key else "";
      assert Route(hash, n, key) == only;
    }
    TotalOfOne(shards, only);
    ShardsAreIndependent(Empty(n), ops, hash, maxBytes, only);
    AlwaysSound([], Project(ops, hash, n, only), maxBytes);
  }

  lemma NothingStored(maxBytes: nat, n: nat, ops: seq<Op>, hash: Hash)
    requires maxBytes < n && maxBytes < SMALLEST
    ensures TotalAll(DoAllSharded(Empty(n), ops, hash, PerShard(maxBytes, n))) <= maxBytes
  {
    assert maxBytes / n == 0;
    var shards: seq<seq<Item>> := DoAllSharded(Empty(n), ops, hash, maxBytes);
    forall s | 0 <= s < n ensures shards[s] == [] {
      ShardsAreIndependent(Empty(n), ops, hash, maxBytes, s);
      NothingFits(Project(ops, hash, n, s), maxBytes);
    }
    TotalOfEmpty(shards);
  }

  // The total never exceeds maxBytes, whatever is done, exactly when there is a byte for every shard, or nothing
  // can be stored at all, or all keys fall into one shard.
  lemma BudgetExactly(maxBytes: nat, n: nat, hash: Hash)
    requires n > 0
    ensures (forall ops :: TotalAll(DoAllSharded(Empty(n), ops, hash, PerShard(maxBytes, n))) <= maxBytes)
            <==> n <= maxBytes || maxBytes < SMALLEST || OneShardOnly(hash, n)
  {
    if n <= maxBytes || maxBytes < SMALLEST || OneShardOnly(hash, n) {
      forall ops ensures TotalAll(DoAllSharded(Empty(n), ops, hash, PerShard(maxBytes, n))) <= maxBytes {
        if n <= maxBytes {
          WithinBudget(maxBytes, n, ops, hash);
        } else if maxBytes < SMALLEST {
          NothingStored(maxBytes, n, ops, hash);
        } else {
          OneShardBounded(maxBytes, n, ops, hash);
        }
      }
    } else {
      var a, b :| Route(hash, n, a) != Route(hash, n, b);
      TwoExceed(maxBytes, n, hash, a, b);
    }
  }

  lemma StoreAlone(key: string, e: Entry, budget: nat)
    requires SizeBytes(e.payload) <= budget
    ensures Total(Stored([], key, e, budget)) == SizeBytes(e.payload)
  {
    var x := Item(key, e, SizeBytes(e.payload));
    assert Without([], key) == [] && [x] + [] == [x] && [x][1..] == [];
    assert Fit([x], budget) == [x];
  }

  lemma {:induction false} TotalAtLeast(shards: seq<seq<Item>>, a: nat, b: nat)
    requires a < |shards| && b < |shards| && a != b
    ensures TotalAll(shards) >= Total(shards[a]) + Total(shards[b])
  {
    if a == 0 {
      OneAtLeast(shards[1..], b - 1);
    } else if b == 0 {
      OneAtLeast(shards[1..], a - 1);
    } else {
      TotalAtLeast(shards[1..], a - 1, b - 1);
    }
  }

  lemma {:induction false} OneAtLeast(shards: seq<seq<Item>>, a: nat)
    requires a < |shards|
    ensures TotalAll(shards) >= Total(shards[a])
  {
    if a > 0 {
      OneAtLeast(shards[1..], a - 1);
    }
  }

  // ---------------------------------------------------------------------------------------------
  // All shards together, seen as the one map the request protocol works with.

  function UnionMap(shards: seq<seq<Item>>): map<string, Entry> {
    if shards == [] then map[] else AsMap(shards[0]) + UnionMap(shards[1..])
  }

  // A key is looked up in its own shard.
  lemma {:induction false} UnionFrom(shards: seq<seq<Item>>, key: string, s: nat)
    requires s < |shards|
    requires forall j :: 0 <= j < |shards| && j != s ==> key !in AsMap(shards[j])
    ensures key in UnionMap(shards) <==> key in AsMap(shards[s])
    ensures key in AsMap(shards[s]) ==> UnionMap(shards)[key] == AsMap(shards[s])[key]
    decreases |shards|
  {
    var rest := shards[1..];
    if s == 0 {
      NowhereElse(rest, key);
    } else {
      UnionFrom(rest, key, s - 1);
    }
  }

  lemma {:induction false} NowhereElse(shards: seq<seq<Item>>, key: string)
    requires forall j :: 0 <= j < |shards| ==> key !in AsMap(shards[j])
    ensures key !in UnionMap(shards)
  {
    if shards != [] {
      NowhereElse(shards[1..], key);
    }
  }

  lemma UnionAt(shards: seq<seq<Item>>, hash: Hash, key: string)
    requires |shards| > 0 && Routed(shards, hash)
    ensures var own := AsMap(shards[Route(hash, |shards|, key)]);
            && (key in UnionMap(shards) <==> key in own)
            && (key in own ==> UnionMap(shards)[key] == own[key])
  {
    var s := Route(hash, |shards|, key);
    forall j | 0 <= j < |shards| && j != s ensures key !in AsMap(shards[j]) {
      AsMapOf(shards[j], key);
    }
    UnionFrom(shards, key, s);
  }

  // A put into the sharded cache is an assignment to the map of all its objects, after which some keys may be gone;
  // a get changes nothing.
  lemma ShardedStoreIsAssignment(shards: seq<seq<Item>>, key: string, entry: Entry, hash: Hash, budget: nat)
    requires |shards| > 0 && Routed(shards, hash)
    requires forall s :: 0 <= s < |shards| ==> DistinctKeys(shards[s])
    ensures var after := UnionMap(DoSharded(shards, Put(key, entry), hash, budget));
            var written := UnionMap(shards)[key := entry];
            after.Keys <= written.Keys && after == written - (written.Keys - after.Keys)
  {
    var next := DoSharded(shards, Put(key, entry), hash, budget);
    var s := Route(hash, |shards|, key);
    OneKeepsRouted(shards, Put(key, entry), hash, budget);
    StoreIsAssignment(shards[s], key, entry, budget);
    var after, written := UnionMap(next), UnionMap(shards)[key := entry];
    forall k | k in after ensures k in written && after[k] == written[k] {
      UnionAt(next, hash, k);
      UnionAt(shards, hash, k);
      assert Route(hash, |next|, k) != s ==> next[Route(hash, |next|, k)] == shards[Route(hash, |next|, k)];
    }
    Restriction(after, written);
  }

  lemma Restriction(after: map<string, Entry>, written: map<string, Entry>)
    requires forall k :: k in after ==> k in written && after[k] == written[k]
    ensures after.Keys <= written.Keys && after == written - (written.Keys - after.Keys)
  {
  }

  lemma OneKeepsRouted(shards: seq<seq<Item>>, op: Op, hash: Hash, budget: nat)
    requires |shards| > 0 && Routed(shards, hash)
    ensures Routed(DoSharded(shards, op, hash, budget), hash)
  {
    AlwaysRouted(shards, [op], hash, budget);
    assert [op][1..] == [];
    var next := DoSharded(shards, op, hash, budget);
    assert DoAllSharded(shards, [op], hash, budget) == DoAllSharded(next, [], hash, budget) == next;
  }

  lemma KeptInMap(items: seq<Item>, p: Item -> bool, key: string)
    requires DistinctKeys(items)
    ensures var own, kept := AsMap(items), AsMap(Keep(items, p));
            && (key in kept <==> ItemOf(items, key).Some? && p(ItemOf(items, key).value))
            && (key in kept ==> key in own && kept[key] == own[key])
  {
    AsMapOf(items, key);
    AsMapOf(Keep(items, p), key);
    ItemOfKeep(items, key, p);
  }

  // The union after a pass that keeps the wanted items of every shard.
  lemma KeptInUnion(shards: seq<seq<Item>>, next: seq<seq<Item>>, p: Item -> bool, hash: Hash, key: string)
    requires |next| == |shards| > 0 && Routed(shards, hash) && Routed(next, hash)
    requires forall s :: 0 <= s < |shards| ==> DistinctKeys(shards[s]) && next[s] == Keep(shards[s], p)
    ensures var x := ItemOf(shards[Route(hash, |shards|, key)], key);
            && (key in UnionMap(shards) <==> x.Some?)
            && (key in UnionMap(next) <==> x.Some? && p(x.value))
            && (key in UnionMap(next) ==> key in UnionMap(shards) && UnionMap(next)[key] == UnionMap(shards)[key])
  {
    UnionAt(next, hash, key);
    UnionAt(shards, hash, key);
    AsMapOf(shards[Route(hash, |shards|, key)], key);
    KeptInMap(shards[Route(hash, |shards|, key)], p, key);
  }

  function Filtered(cache: map<string, Entry>, spare: string -> bool): map<string, Entry> {
    map k | k in cache && spare(k) :: cache[k]
  }

  lemma UnionFiltered(shards: seq<seq<Item>>, next: seq<seq<Item>>, p: Item -> bool, spare: string -> bool, hash: Hash)
    requires |next| == |shards| > 0 && Routed(shards, hash) && Routed(next, hash)
    requires forall s :: 0 <= s < |shards| ==> DistinctKeys(shards[s]) && next[s] == Keep(shards[s], p)
    requires forall x: Item :: p(x) == spare(x.key)
    ensures UnionMap(next) == Filtered(UnionMap(shards), spare)
  {
    var after, before := UnionMap(next), UnionMap(shards);
    forall k ensures k in after <==> k in Filtered(before, spare) {
      KeptInUnion(shards, next, p, hash, k);
    }
    forall k | k in after ensures k in before && after[k] == before[k] {
      KeptInUnion(shards, next, p, hash, k);
    }
  }

  function Sparing(pattern: string): string -> bool {
    (k: string) => !Patterns.PurgeMatches(pattern, k)
  }

  lemma SparedIs(cache: map<string, Entry>, pattern: string)
    ensures Filtered(cache, Sparing(pattern)) == Patterns.Spared(cache, pattern)
  {
  }

  lemma PurgedShards(shards: seq<seq<Item>>, pattern: string, hash: Hash, budget: nat)
    requires |shards| > 0
    ensures var next := DoSharded(shards, Purge(pattern), hash, budget);
            forall s :: 0 <= s < |shards| ==> next[s] == Keep(shards[s], Uncovered(pattern))
  {
  }

  // A purge leaves exactly the objects that the pattern does not cover, which is what a purge is for the fleet.
  lemma ShardedPurgeSpares(shards: seq<seq<Item>>, pattern: string, hash: Hash, budget: nat)
    requires |shards| > 0 && Routed(shards, hash)
    requires forall s :: 0 <= s < |shards| ==> DistinctKeys(shards[s])
    ensures UnionMap(DoSharded(shards, Purge(pattern), hash, budget)) == Patterns.Spared(UnionMap(shards), pattern)
  {
    OneKeepsRouted(shards, Purge(pattern), hash, budget);
    PurgedShards(shards, pattern, hash, budget);
    var next := DoSharded(shards, Purge(pattern), hash, budget);
    UnionFiltered(shards, next, Uncovered(pattern), Sparing(pattern), hash);
    SparedIs(UnionMap(shards), pattern);
  }

  lemma ShardedTouchIsIdentity(shards: seq<seq<Item>>, key: string, hash: Hash, budget: nat)
    requires |shards| > 0 && forall s :: 0 <= s < |shards| ==> DistinctKeys(shards[s])
    ensures UnionMap(DoSharded(shards, Get(key), hash, budget)) == UnionMap(shards)
  {
    var s := Route(hash, |shards|, key);
    TouchIsIdentity(shards[s], key);
    SameMaps(shards, DoSharded(shards, Get(key), hash, budget));
  }

  lemma {:induction false} SameMaps(a: seq<seq<Item>>, b: seq<seq<Item>>)
    requires |a| == |b| && forall s :: 0 <= s < |a| ==> AsMap(a[s]) == AsMap(b[s])
    ensures UnionMap(a) == UnionMap(b)
  {
    if a != [] {
      SameMaps(a[1..], b[1..]);
    }
  }
}
