// What an LRU cache shard contains: a list of items, most recent first, and what each operation makes of it.
module LruLists {
  import opened Wrappers
  import opened CacheEntries
  import opened HttpHeaders
  import Patterns

  type Entry = CacheEntry<Payload>

  function HeaderBytes(h: Headers): nat {
    if h == [] then 0 else |h[0].0| + |h[0].1| + 8 + HeaderBytes(h[1..])
  }

  // CacheEntry::sizeBytes
  function SizeBytes(p: Payload): (n: nat)
    ensures n >= 64
  {
    |p.body| + |p.reason| + |p.etag| + 64 + HeaderBytes(p.headers)
  }

  datatype Item = Item(key: string, entry: Entry, bytes: nat)

  function Keep<T>(s: seq<T>, p: T -> bool): seq<T> {
    if s == [] then [] else if p(s[0]) then [s[0]] + Keep(s[1..], p) else Keep(s[1..], p)
  }

  function Total(items: seq<Item>): nat {
    if items == [] then 0 else items[0].bytes + Total(items[1..])
  }

  // The longest prefix whose total is within the budget.
  function Fit(items: seq<Item>, budget: int): seq<Item> {
    if items == [] || items[0].bytes > budget then []
    else [items[0]] + Fit(items[1..], budget - items[0].bytes)
  }

  predicate DistinctKeys(items: seq<Item>) {
    forall i, j :: 0 <= i < j < |items| ==> items[i].key != items[j].key
  }

  function Without(items: seq<Item>, key: string): seq<Item> {
    Keep(items, (x: Item) => x.key != key)
  }

  function ItemOf(items: seq<Item>, key: string): (r: Option<Item>)
    ensures r.Some? ==> r.value in items && r.value.key == key
    ensures r.None? ==> forall i :: 0 <= i < |items| ==> items[i].key != key
  {
    if items == [] then None
    else if items[0].key == key then Some(items[0])
    else ItemOf(items[1..], key)
  }

  // get: a found item becomes the most recent.
  function Touched(items: seq<Item>, key: string): seq<Item> {
    match ItemOf(items, key)
    case None => items
    case Some(x) => [x] + Without(items, key)
  }

  // put: the new item is the most recent; what no longer fits goes, least recent first.
  function Stored(items: seq<Item>, key: string, entry: Entry, budget: nat): seq<Item> {
    Fit([Item(key, entry, SizeBytes(entry.payload))] + Without(items, key), budget)
  }

  function Uncovered(pattern: string): Item -> bool {
    (x: Item) => !Patterns.PurgeMatches(pattern, x.key)
  }

  function Purged(items: seq<Item>, pattern: string): seq<Item> {
    Keep(items, Uncovered(pattern))
  }

  function Unexpired(now: int): Item -> bool {
    (x: Item) => IsServeableStale(x.entry, now)
  }

  function Swept(items: seq<Item>, now: int): seq<Item> {
    Keep(items, Unexpired(now))
  }

  // Facts about item lists.

  lemma {:induction false} TotalConcat(a: seq<Item>, b: seq<Item>)
    ensures Total(a + b) == Total(a) + Total(b)
  {
    if a == [] {
      assert a + b == b;
    } else {
      assert (a + b)[1..] == a[1..] + b;
      TotalConcat(a[1..], b);
    }
  }

  lemma TotalMiddle(a: seq<Item>, x: Item, b: seq<Item>)
    ensures Total(a + ([x] + b)) == x.bytes + Total(a + b)
  {
    TotalConcat(a, [x] + b);
    TotalConcat(a, b);
    assert ([x] + b)[1..] == b;
  }

  lemma TotalRemove(items: seq<Item>, p: nat)
    requires p < |items|
    ensures Total(items) == items[p].bytes + Total(items[..p] + items[p + 1..])
  {
    AroundItem(items, p, items[..p], items[p + 1..]);
    TotalMiddle(items[..p], items[p], items[p + 1..]);
  }

  lemma AroundItem(items: seq<Item>, p: nat, a: seq<Item>, b: seq<Item>)
    requires p < |items| && a == items[..p] && b == items[p + 1..]
    ensures items == a + ([items[p]] + b)
  {
  }

  lemma {:induction false} KeepConcat<T>(a: seq<T>, b: seq<T>, p: T -> bool)
    ensures Keep(a + b, p) == Keep(a, p) + Keep(b, p)
  {
    if a == [] {
      assert a + b == b;
    } else {
      assert (a + b)[1..] == a[1..] + b;
      KeepConcat(a[1..], b, p);
    }
  }

  lemma {:induction false} KeepAll<T>(s: seq<T>, p: T -> bool)
    requires forall i :: 0 <= i < |s| ==> p(s[i])
    ensures Keep(s, p) == s
  {
    if s != [] {
      KeepAll(s[1..], p);
    }
  }

  lemma {:induction false} KeepIn<T>(s: seq<T>, p: T -> bool)
    ensures |Keep(s, p)| <= |s|
    ensures forall x :: x in Keep(s, p) <==> x in s && p(x)
  {
    if s != [] {
      KeepIn(s[1..], p);
    }
  }

  lemma {:induction false} KeepDistinct(s: seq<Item>, p: Item -> bool)
    requires DistinctKeys(s)
    ensures DistinctKeys(Keep(s, p))
  {
    if s != [] {
      KeepDistinct(s[1..], p);
      KeepIn(s[1..], p);
      var rest := Keep(s[1..], p);
      forall j | 0 <= j < |rest| ensures rest[j].key != s[0].key {
        assert rest[j] in s[1..];
        var k :| 0 <= k < |s[1..]| && s[1..][k] == rest[j];
        assert s[k + 1] == rest[j];
      }
    }
  }

  // Taking out the one item with a key.
  lemma {:induction false} WithoutAt(items: seq<Item>, p: nat)
    requires DistinctKeys(items) && p < |items|
    ensures Without(items, items[p].key) == items[..p] + items[p + 1..]
    ensures ItemOf(items, items[p].key) == Some(items[p])
  {
    if p == 0 {
      KeepAll(items[1..], (x: Item) => x.key != items[p].key);
    } else {
      WithoutAt(items[1..], p - 1);
      assert items[..p] == [items[0]] + items[1..][..p - 1];
    }
  }

  lemma WithoutAbsent(items: seq<Item>, key: string)
    requires forall i :: 0 <= i < |items| ==> items[i].key != key
    ensures Without(items, key) == items
  {
    KeepAll(items, (x: Item) => x.key != key);
  }

  // Fit is a prefix, it fits, and the next longer prefix does not.
  lemma {:induction false} FitIsLongest(items: seq<Item>, budget: int)
    requires budget >= 0
    ensures var f := Fit(items, budget);
            && f <= items && Total(f) <= budget
            && (f != items ==> Total(items[..|f| + 1]) > budget)
  {
    if items != [] && items[0].bytes <= budget {
      FitIsLongest(items[1..], budget - items[0].bytes);
      var f := Fit(items, budget);
      var g := Fit(items[1..], budget - items[0].bytes);
      assert f[1..] == g;
      if f != items {
        assert g != items[1..];
        assert items[..|f| + 1][1..] == items[1..][..|g| + 1];
      }
    } else if items != [] {
      assert items[..1][1..] == [];
    }
  }

  lemma {:induction false} FitIs(items: seq<Item>, budget: int, n: nat)
    requires n <= |items| && Total(items[..n]) <= budget
    requires n < |items| ==> Total(items[..n + 1]) > budget
    ensures Fit(items, budget) == items[..n]
  {
    if n > 0 {
      assert items[..n][1..] == items[1..][..n - 1];
      if n < |items| {
        assert items[..n + 1][1..] == items[1..][..n];
      }
      FitIs(items[1..], budget - items[0].bytes, n - 1);
    } else if items != [] {
      assert items[..1][1..] == [];
    }
  }
}
