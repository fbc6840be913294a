// Laws of the LRU cache over whole operation sequences.
module LruLaws {
  import opened Wrappers
  import opened CacheEntries
  import opened HttpHeaders
  import opened LruLists
  import Patterns

  // What a shard is asked to do. Access is a get followed, on a miss, by a put.
  datatype Op =
    | Access(key: string, entry: Entry)
    | Put(key: string, entry: Entry)
    | Get(key: string)
    | Erase(key: string)
    | Purge(pattern: string)
    | Sweep(now: int)

  function Do(items: seq<Item>, op: Op, budget: nat): seq<Item> {
    match op
    case Access(key, entry) =>
      if ItemOf(items, key).Some? then Touched(items, key) else Stored(items, key, entry, budget)
    case Put(key, entry) => Stored(items, key, entry, budget)
    case Get(key) => Touched(items, key)
    case Erase(key) => Without(items, key)
    case Purge(pattern) => Purged(items, pattern)
    case Sweep(now) => Swept(items, now)
  }

  function DoAll(items: seq<Item>, ops: seq<Op>, budget: nat): seq<Item>
    decreases |ops|
  {
    if ops == [] then items else DoAll(Do(items, ops[0], budget), ops[1..], budget)
  }

  function IsHit(items: seq<Item>, op: Op): nat {
    if (op.Access? || op.Get?) && ItemOf(items, op.key).Some? then 1 else 0
  }

  function Hits(items: seq<Item>, ops: seq<Op>, budget: nat): nat
    decreases |ops|
  {
    if ops == [] then 0 else IsHit(items, ops[0]) + Hits(Do(items, ops[0], budget), ops[1..], budget)
  }

  // ---------------------------------------------------------------------------------------------
  // Invariants of a shard, for every operation sequence.

  // No two items share a key, every item has its true size, and everything is within the budget.
  ghost predicate Sound(items: seq<Item>, budget: nat) {
    DistinctKeys(items) && Measured(items) && Total(items) <= budget
  }

  ghost predicate Measured(items: seq<Item>) {
    forall i :: 0 <= i < |items| ==> items[i].bytes == SizeBytes(items[i].entry.payload)
  }

  lemma {:induction false} KeepTotal(items: seq<Item>, p: Item -> bool)
    ensures Total(Keep(items, p)) <= Total(items)
  {
    if items != [] {
      KeepTotal(items[1..], p);
    }
  }

  lemma KeepSound(items: seq<Item>, p: Item -> bool, budget: nat)
    requires Sound(items, budget)
    ensures Sound(Keep(items, p), budget)
  {
    KeepDistinct(items, p);
    KeepTotal(items, p);
    KeepIn(items, p);
    forall i | 0 <= i < |Keep(items, p)|
      ensures Keep(items, p)[i].bytes == SizeBytes(Keep(items, p)[i].entry.payload)
    {
      assert Keep(items, p)[i] in items;
    }
  }

  lemma TouchSound(items: seq<Item>, key: string, budget: nat)
    requires Sound(items, budget)
    ensures Sound(Touched(items, key), budget)
  {
    var x := ItemOf(items, key);
    if x.Some? {
      var p :| 0 <= p < |items| && items[p] == x.value;
      WithoutAt(items, p);
      TotalRemove(items, p);
      KeepSound(items, (y: Item) => y.key != key, budget);
    }
  }

  lemma FitSound(items: seq<Item>, budget: nat)
    requires DistinctKeys(items) && Measured(items)
    ensures Sound(Fit(items, budget), budget)
  {
    FitIsLongest(items, budget);
    var f := Fit(items, budget);
    assert forall i :: 0 <= i < |f| ==> f[i] == items[i];
  }

  lemma StoreSound(items: seq<Item>, key: string, entry: Entry, budget: nat)
    requires Sound(items, budget)
    ensures Sound(Stored(items, key, entry, budget), budget)
  {
    var kept := Without(items, key);
    KeepSound(items, (y: Item) => y.key != key, budget);
    KeepIn(items, (y: Item) => y.key != key);
    forall i | 0 <= i < |kept| ensures kept[i].key != key {
      assert kept[i] in kept;
    }
    FitSound([Item(key, entry, SizeBytes(entry.payload))] + kept, budget);
  }

  lemma {:induction false} AlwaysSound(items: seq<Item>, ops: seq<Op>, budget: nat)
    requires Sound(items, budget)
    ensures Sound(DoAll(items, ops, budget), budget)
    decreases |ops|
  {
    if ops != [] {
      match ops[0] {
        case Access(key, entry) =>
          TouchSound(items, key, budget);
          StoreSound(items, key, entry, budget);
        case Put(key, entry) => StoreSound(items, key, entry, budget);
        case Get(key) => TouchSound(items, key, budget);
        case Erase(key) => KeepSound(items, (y: Item) => y.key != key, budget);
        case Purge(pattern) => KeepSound(items, Uncovered(pattern), budget);
        case Sweep(now) => KeepSound(items, Unexpired(now), budget);
      }
      AlwaysSound(Do(items, ops[0], budget), ops[1..], budget);
    }
  }

  // Storing an entry that alone exceeds the budget leaves the shard empty: everything is evicted, and then
  // the new entry too. Any other entry is the most recent afterwards.
  lemma StoreOutcome(items: seq<Item>, key: string, entry: Entry, budget: nat)
    ensures SizeBytes(entry.payload) > budget <==> Stored(items, key, entry, budget) == []
    ensures SizeBytes(entry.payload) <= budget ==>
              ItemOf(Stored(items, key, entry, budget), key) == Some(Item(key, entry, SizeBytes(entry.payload)))
  {
  }

  // ---------------------------------------------------------------------------------------------
  // Inclusion: with fixed entry sizes a larger budget holds whatever a smaller one holds.

  function Keys(items: seq<Item>): seq<string> {
    if items == [] then [] else [items[0].key] + Keys(items[1..])
  }

  ghost predicate SizedBy(items: seq<Item>, size: string -> nat) {
    forall i :: 0 <= i < |items| ==> items[i].bytes == size(items[i].key)
  }

  // The operations inclusion is about: a get that misses is followed by a put, entries of a key have the
  // key's size, and nothing depends on the clock.
  ghost predicate OpSized(op: Op, size: string -> nat) {
    match op
    case Access(key, entry) => SizeBytes(entry.payload) == size(key)
    case Put(key, entry) => SizeBytes(entry.payload) == size(key)
    case Erase(_) => true
    case Purge(_) => true
    case _ => false
  }

  // The same operations on the list of keys.
  function FitKeys(keys: seq<string>, size: string -> nat, budget: int): seq<string> {
    if keys == [] || size(keys[0]) > budget then []
    else [keys[0]] + FitKeys(keys[1..], size, budget - size(keys[0]))
  }

  function StoreKey(keys: seq<string>, key: string, size: string -> nat, budget: nat): seq<string> {
    FitKeys([key] + Keep(keys, (k: string) => k != key), size, budget)
  }

  function TouchKey(keys: seq<string>, key: string): seq<string> {
    if key in keys then [key] + Keep(keys, (k: string) => k != key) else keys
  }

  function DoKeys(keys: seq<string>, op: Op, size: string -> nat, budget: nat): seq<string> {
    match op
    case Access(key, _) => if key in keys then TouchKey(keys, key) else StoreKey(keys, key, size, budget)
    case Put(key, _) => StoreKey(keys, key, size, budget)
    case Erase(key) => Keep(keys, (k: string) => k != key)
    case Purge(pattern) => Keep(keys, (k: string) => !Patterns.PurgeMatches(pattern, k))
    case _ => keys
  }

  lemma {:induction false} KeysKeep(items: seq<Item>, p: Item -> bool, q: string -> bool)
    requires forall x: Item :: p(x) == q(x.key)
    ensures Keys(Keep(items, p)) == Keep(Keys(items), q)
  {
    if items != [] {
      KeysKeep(items[1..], p, q);
      assert Keys(items)[1..] == Keys(items[1..]);
      if p(items[0]) {
        assert Keep(items, p)[1..] == Keep(items[1..], p);
      }
    }
  }

  lemma {:induction false} KeysFit(items: seq<Item>, size: string -> nat, budget: int)
    requires SizedBy(items, size)
    ensures Keys(Fit(items, budget)) == FitKeys(Keys(items), size, budget)
    ensures SizedBy(Fit(items, budget), size)
  {
    if items != [] && items[0].bytes <= budget {
      assert Keys(items)[1..] == Keys(items[1..]);
      KeysFit(items[1..], size, budget - items[0].bytes);
      assert Fit(items, budget)[1..] == Fit(items[1..], budget - items[0].bytes);
    }
  }

  lemma {:induction false} KeysFind(items: seq<Item>, key: string)
    ensures ItemOf(items, key).Some? <==> key in Keys(items)
  {
    if items != [] {
      KeysFind(items[1..], key);
      assert Keys(items) == [items[0].key] + Keys(items[1..]);
    }
  }

  lemma KeepSized(items: seq<Item>, p: Item -> bool, size: string -> nat)
    requires SizedBy(items, size)
    ensures SizedBy(Keep(items, p), size)
  {
    KeepIn(items, p);
    forall i | 0 <= i < |Keep(items, p)| ensures Keep(items, p)[i].bytes == size(Keep(items, p)[i].key) {
      assert Keep(items, p)[i] in items;
    }
  }

  lemma WithoutKeys(items: seq<Item>, key: string, size: string -> nat)
    requires SizedBy(items, size)
    ensures Keys(Without(items, key)) == Keep(Keys(items), (k: string) => k != key)
    ensures SizedBy(Without(items, key), size)
  {
    KeysKeep(items, (x: Item) => x.key != key, (k: string) => k != key);
    KeepSized(items, (x: Item) => x.key != key, size);
  }

  lemma StoreKeys(items: seq<Item>, key: string, entry: Entry, size: string -> nat, budget: nat)
    requires SizedBy(items, size) && SizeBytes(entry.payload) == size(key)
    ensures Keys(Stored(items, key, entry, budget)) == StoreKey(Keys(items), key, size, budget)
    ensures SizedBy(Stored(items, key, entry, budget), size)
  {
    WithoutKeys(items, key, size);
    var all := [Item(key, entry, SizeBytes(entry.payload))] + Without(items, key);
    assert all[1..] == Without(items, key);
    assert Keys(all) == [key] + Keys(Without(items, key));
    KeysFit(all, size, budget);
  }

  lemma TouchKeys(items: seq<Item>, key: string, size: string -> nat)
    requires SizedBy(items, size)
    ensures Keys(Touched(items, key)) == TouchKey(Keys(items), key)
    ensures SizedBy(Touched(items, key), size)
  {
    KeysFind(items, key);
    WithoutKeys(items, key, size);
    var x := ItemOf(items, key);
    if x.Some? {
      assert ([x.value] + Without(items, key))[1..] == Without(items, key);
    }
  }

  // What an operation does to the keys depends on the keys and sizes alone.
  lemma DoOnKeys(items: seq<Item>, op: Op, size: string -> nat, budget: nat)
    requires SizedBy(items, size) && OpSized(op, size)
    ensures Keys(Do(items, op, budget)) == DoKeys(Keys(items), op, size, budget)
    ensures SizedBy(Do(items, op, budget), size)
  {
    match op
    case Access(key, entry) =>
      KeysFind(items, key);
      TouchKeys(items, key, size);
      StoreKeys(items, key, entry, size, budget);
    case Put(key, entry) => StoreKeys(items, key, entry, size, budget);
    case Erase(key) => WithoutKeys(items, key, size);
    case Purge(pattern) =>
      KeysKeep(items, Uncovered(pattern), (k: string) => !Patterns.PurgeMatches(pattern, k));
      KeepSized(items, Uncovered(pattern), size);
  }

  lemma {:induction false} KeepPrefix(a: seq<string>, b: seq<string>, p: string -> bool)
    requires a <= b
    ensures Keep(a, p) <= Keep(b, p)
  {
    assert b == a + b[|a|..];
    KeepConcat(a, b[|a|..], p);
  }

  lemma {:induction false} FitPrefix(a: seq<string>, b: seq<string>, size: string -> nat, m: int, M: int)
    requires a <= b && m <= M
    ensures FitKeys(a, size, m) <= FitKeys(b, size, M)
  {
    if a != [] && size(a[0]) <= m {
      assert a[1..] <= b[1..];
      FitPrefix(a[1..], b[1..], size, m - size(a[0]), M - size(a[0]));
    }
  }

  lemma {:induction false} FitIsPrefix(a: seq<string>, size: string -> nat, m: int)
    ensures FitKeys(a, size, m) <= a
  {
    if a != [] && size(a[0]) <= m {
      FitIsPrefix(a[1..], size, m - size(a[0]));
    }
  }

  lemma DoPrefix(a: seq<string>, b: seq<string>, op: Op, size: string -> nat, m: nat, M: nat)
    requires a <= b && m <= M && OpSized(op, size)
    ensures DoKeys(a, op, size, m) <= DoKeys(b, op, size, M)
  {
    if op.Purge? {
      KeepPrefix(a, b, (k: string) => !Patterns.PurgeMatches(op.pattern, k));
    } else {
      var rest := (k: string) => k != op.key;
      KeepPrefix(a, b, rest);
      assert [op.key] + Keep(a, rest) <= [op.key] + Keep(b, rest);
      FitPrefix([op.key] + Keep(a, rest), [op.key] + Keep(b, rest), size, m, M);
      FitIsPrefix([op.key] + Keep(a, rest), size, m);
    }
  }

  // For budgets m <= M and the same operations, the smaller cache's recency list is always a prefix of the
  // larger one's, and the larger one has had at least as many hits.
  lemma {:induction false} Inclusion(small: seq<Item>, large: seq<Item>, ops: seq<Op>, size: string -> nat, m: nat,
                                     M: nat)
    requires m <= M && forall i :: 0 <= i < |ops| ==> OpSized(ops[i], size)
    requires SizedBy(small, size) && SizedBy(large, size) && Keys(small) <= Keys(large)
    ensures Keys(DoAll(small, ops, m)) <= Keys(DoAll(large, ops, M))
    ensures Hits(small, ops, m) <= Hits(large, ops, M)
    decreases |ops|
  {
    if ops != [] {
      var op := ops[0];
      assert OpSized(op, size);
      if op.Access? {
        KeysFind(small, op.key);
        KeysFind(large, op.key);
      }
      DoOnKeys(small, op, size, m);
      DoOnKeys(large, op, size, M);
      DoPrefix(Keys(small), Keys(large), op, size, m, M);
      Inclusion(Do(small, op, m), Do(large, op, M), ops[1..], size, m, M);
    }
  }

  // ---------------------------------------------------------------------------------------------
  // Seen as a map, a put is an assignment after which some keys may be gone, and a get changes nothing:
  // what the request protocol assumes of L1.

  function AsMap(items: seq<Item>): map<string, Entry> {
    if items == [] then map[] else AsMap(items[1..])[items[0].key := items[0].entry]
  }

  lemma {:induction false} AsMapOf(items: seq<Item>, key: string)
    ensures key in AsMap(items) <==> ItemOf(items, key).Some?
    ensures key in AsMap(items) ==> AsMap(items)[key] == ItemOf(items, key).value.entry
  {
    if items != [] {
      AsMapOf(items[1..], key);
    }
  }

  lemma {:induction false} ItemOfKeep(items: seq<Item>, key: string, p: Item -> bool)
    requires DistinctKeys(items)
    ensures ItemOf(Keep(items, p), key)
            == (if ItemOf(items, key).Some? && p(ItemOf(items, key).value) then ItemOf(items, key) else None)
  {
    if items != [] {
      ItemOfKeep(items[1..], key, p);
    }
  }

  lemma {:induction false} ItemOfPrefix(items: seq<Item>, n: nat, key: string)
    requires n <= |items|
    ensures ItemOf(items[..n], key).Some? ==> ItemOf(items[..n], key) == ItemOf(items, key)
  {
    if n > 0 {
      assert items[..n][1..] == items[1..][..n - 1];
      ItemOfPrefix(items[1..], n - 1, key);
    }
  }

  lemma StoreIsAssignment(items: seq<Item>, key: string, entry: Entry, budget: nat)
    requires DistinctKeys(items)
    ensures var after := AsMap(Stored(items, key, entry, budget));
            var written := AsMap(items)[key := entry];
            after == written - (written.Keys - after.Keys) && after.Keys <= written.Keys
  {
    var all := [Item(key, entry, SizeBytes(entry.payload))] + Without(items, key);
    var stored := Stored(items, key, entry, budget);
    FitIsLongest(all, budget);
    forall k | k in AsMap(stored)
      ensures k in AsMap(items)[key := entry] && AsMap(stored)[k] == AsMap(items)[key := entry][k]
    {
      AsMapOf(stored, k);
      AsMapOf(items, k);
      assert stored == all[..|stored|];
      ItemOfPrefix(all, |stored|, k);
      assert all[1..] == Without(items, key);
      ItemOfKeep(items, k, (x: Item) => x.key != key);
    }
  }

  lemma TouchIsIdentity(items: seq<Item>, key: string)
    requires DistinctKeys(items)
    ensures AsMap(Touched(items, key)) == AsMap(items)
  {
    forall k
      ensures k in AsMap(Touched(items, key)) <==> k in AsMap(items)
      ensures k in AsMap(items) ==> AsMap(Touched(items, key))[k] == AsMap(items)[k]
    {
      AsMapOf(Touched(items, key), k);
      AsMapOf(items, k);
      var x := ItemOf(items, key);
      if x.Some? {
        assert ([x.value] + Without(items, key))[1..] == Without(items, key);
        ItemOfKeep(items, k, (y: Item) => y.key != key);
      }
    }
  }

  // ---------------------------------------------------------------------------------------------
  // What a sweep leaves, and what an entry weighs.

  // A sweep leaves exactly the entries whose lifetime and grace period are not over.
  lemma SweepKeepsExactly(items: seq<Item>, now: int, x: Item)
    requires -0x4000_0000_0000_0000 < now - x.entry.storedAt < 0x4000_0000_0000_0000
    requires x.entry.ttlSeconds + x.entry.swrSeconds < 0x8000_0000_0000_0000
    ensures x in Swept(items, now) <==>
              && x in items && x.entry.ttlSeconds + x.entry.swrSeconds > 0
              && -1_000_000_000 < now - x.entry.storedAt
              && now - x.entry.storedAt < (x.entry.ttlSeconds + x.entry.swrSeconds) * 1_000_000_000
  {
    KeepIn(items, Unexpired(now));
    FreshWindow(x.entry, now);
  }

  // All names and values of the headers, one behind the other.
  function HeaderText(h: Headers): string {
    if h == [] then "" else h[0].0 + h[0].1 + HeaderText(h[1..])
  }

  // An entry counts for 64 bytes, 8 for each header, and one for each byte of its strings.
  lemma SizeCounts(p: Payload)
    ensures SizeBytes(p) == 64 + 8 * |p.headers| + |p.body + p.reason + p.etag + HeaderText(p.headers)|
  {
    HeadersCount(p.headers);
  }

  lemma {:induction false} HeadersCount(h: Headers)
    ensures HeaderBytes(h) == 8 * |h| + |HeaderText(h)|
  {
    if h != [] {
      HeadersCount(h[1..]);
    }
  }
}
