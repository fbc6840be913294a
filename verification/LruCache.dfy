// The byte-bounded LRU cache of one shard.
module LruCaches {
  // The class keeps the three structures of the original: the recency list (std::list, most recent first; its
  // iterators are the handles), the index from key to handle, and the byte counter. Its abstract value is the list of
  // items in recency order.

  import opened Wrappers
  import opened LruLists

  type Handle = nat

  ghost predicate Listed(order: seq<Handle>, nodes: map<Handle, Item>) {
    && (forall i, j :: 0 <= i < j < |order| ==> order[i] != order[j])
    && (forall i :: 0 <= i < |order| ==> order[i] in nodes)
  }

  ghost function Items(order: seq<Handle>, nodes: map<Handle, Item>): seq<Item>
    requires Listed(order, nodes)
  {
    seq(|order|, i requires 0 <= i < |order| => nodes[order[i]])
  }

  // The list, the index and the counter agree.
  ghost predicate Agree(order: seq<Handle>, nodes: map<Handle, Item>, index: map<string, Handle>, bytes: int,
                        next: Handle)
  {
    && Listed(order, nodes)
    && (forall h :: h in nodes ==> h in order && h < next)
    && (forall h :: h in nodes ==> nodes[h].key in index && index[nodes[h].key] == h)
    && (forall k :: k in index ==> index[k] in nodes && nodes[index[k]].key == k)
    && bytes == Total(Items(order, nodes))
  }

  lemma AgreeDistinct(order: seq<Handle>, nodes: map<Handle, Item>, index: map<string, Handle>, bytes: int,
                      next: Handle)
    requires Agree(order, nodes, index, bytes, next)
    ensures DistinctKeys(Items(order, nodes))
  {
    forall i, j | 0 <= i < j < |order| ensures nodes[order[i]].key != nodes[order[j]].key {
      assert index[nodes[order[i]].key] == order[i] && index[nodes[order[j]].key] == order[j];
    }
  }

  function CutAt<T>(s: seq<T>, p: nat): seq<T>
    requires p < |s|
  {
    s[..p] + s[p + 1..]
  }

  lemma CutMembers<T>(s: seq<T>, p: nat)
    requires p < |s| && forall i, j :: 0 <= i < j < |s| ==> s[i] != s[j]
    ensures forall x :: x in CutAt(s, p) <==> x in s && x != s[p]
    ensures forall i, j :: 0 <= i < j < |CutAt(s, p)| ==> CutAt(s, p)[i] != CutAt(s, p)[j]
  {
    var cut := CutAt(s, p);
    forall x | x in s && x != s[p] ensures x in cut {
      var i :| 0 <= i < |s| && s[i] == x;
      assert cut[if i < p then i else i - 1] == x;
    }
  }

  lemma ItemsCut(order: seq<Handle>, nodes: map<Handle, Item>, p: nat)
    requires Listed(order, nodes) && p < |order|
    ensures Listed(CutAt(order, p), nodes - {order[p]})
    ensures Items(CutAt(order, p), nodes - {order[p]}) == CutAt(Items(order, nodes), p)
  {
    CutMembers(order, p);
  }

  // The node at p leaves all three structures.
  lemma CutAgrees(order: seq<Handle>, nodes: map<Handle, Item>, index: map<string, Handle>, bytes: int, next: Handle,
                  p: nat)
    requires Agree(order, nodes, index, bytes, next) && p < |order|
    ensures var x := nodes[order[p]];
            && Agree(CutAt(order, p), nodes - {order[p]}, index - {x.key}, bytes - x.bytes, next)
            && Items(CutAt(order, p), nodes - {order[p]}) == CutAt(Items(order, nodes), p)
  {
    var x := nodes[order[p]];
    CutMembers(order, p);
    ItemsCut(order, nodes, p);
    TotalRemove(Items(order, nodes), p);
  }

  // The node at p moves to the front of the list.
  lemma FrontAgrees(order: seq<Handle>, nodes: map<Handle, Item>, index: map<string, Handle>, bytes: int,
                    next: Handle, p: nat)
    requires Agree(order, nodes, index, bytes, next) && p < |order|
    ensures Agree([order[p]] + CutAt(order, p), nodes, index, bytes, next)
    ensures Items([order[p]] + CutAt(order, p), nodes) == [Items(order, nodes)[p]] + CutAt(Items(order, nodes), p)
  {
    var items := Items(order, nodes);
    CutMembers(order, p);
    var order' := [order[p]] + CutAt(order, p);
    assert Listed(order', nodes);
    assert Items(order', nodes) == [items[p]] + CutAt(items, p);
    TotalRemove(items, p);
    TotalConcat([items[p]], CutAt(items, p));
    forall h | h in nodes ensures h in order' {
      assert h in order;
    }
  }

  // The item of the node at p is the only one with its key.
  lemma KeyPresent(order: seq<Handle>, nodes: map<Handle, Item>, index: map<string, Handle>, bytes: int, next: Handle,
                   p: nat)
    requires Agree(order, nodes, index, bytes, next) && p < |order|
    ensures var items := Items(order, nodes);
            Without(items, items[p].key) == CutAt(items, p) && ItemOf(items, items[p].key) == Some(items[p])
  {
    AgreeDistinct(order, nodes, index, bytes, next);
    WithoutAt(Items(order, nodes), p);
  }

  // A new node goes to the front.
  lemma PushAgrees(order: seq<Handle>, nodes: map<Handle, Item>, index: map<string, Handle>, bytes: int, next: Handle,
                   x: Item)
    requires Agree(order, nodes, index, bytes, next) && x.key !in index
    ensures Agree([next] + order, nodes[next := x], index[x.key := next], bytes + x.bytes, next + 1)
    ensures Items([next] + order, nodes[next := x]) == [x] + Items(order, nodes)
  {
    assert Items([next] + order, nodes[next := x]) == [x] + Items(order, nodes);
  }

  // A node gets new content under the same key.
  lemma UpdateAgrees(order: seq<Handle>, nodes: map<Handle, Item>, index: map<string, Handle>, bytes: int, next: Handle,
                     p: nat, x: Item)
    requires Agree(order, nodes, index, bytes, next) && p < |order| && nodes[order[p]].key == x.key
    ensures Agree(order, nodes[order[p] := x], index, bytes - nodes[order[p]].bytes + x.bytes, next)
    ensures Items(order, nodes[order[p] := x]) == Items(order, nodes)[p := x]
  {
    var items := Items(order, nodes);
    assert Items(order, nodes[order[p] := x]) == items[p := x];
    TotalRemove(items, p);
    TotalRemove(items[p := x], p);
    assert items[p := x][..p] == items[..p] && items[p := x][p + 1..] == items[p + 1..];
  }

  lemma KeyAbsent(order: seq<Handle>, nodes: map<Handle, Item>, index: map<string, Handle>, bytes: int, next: Handle,
                  key: string)
    requires Agree(order, nodes, index, bytes, next) && key !in index
    ensures ItemOf(Items(order, nodes), key) == None && Without(Items(order, nodes), key) == Items(order, nodes)
  {
    WithoutAbsent(Items(order, nodes), key);
  }

  // A pass over the list that has reached position `it` after removing `removed` nodes.
  ghost predicate Passed(before: seq<Item>, keep: Item -> bool, it: nat, removed: nat, now: seq<Item>) {
    && removed + |now| == |before| && it <= |now|
    && now[..it] == Keep(before[..it + removed], keep)
    && now[it..] == before[it + removed..]
  }

  lemma PassNext(before: seq<Item>, keep: Item -> bool, it: nat, removed: nat, now: seq<Item>)
    requires Passed(before, keep, it, removed, now) && it < |now|
    ensures keep(now[it]) ==> Passed(before, keep, it + 1, removed, now)
    ensures !keep(now[it]) ==> Passed(before, keep, it, removed + 1, CutAt(now, it))
  {
    var n := it + removed;
    assert now[it] == now[it..][0] == before[n..][0] == before[n];
    assert before[..n + 1] == before[..n] + [before[n]];
    KeepConcat(before[..n], [before[n]], keep);
    assert Keep([before[n]], keep) == (if keep(before[n]) then [before[n]] else []);
    assert now[it + 1..] == now[it..][1..] && before[n + 1..] == before[n..][1..];
    assert now[..it + 1] == now[..it] + [now[it]];
    assert CutAt(now, it)[..it] == now[..it] && CutAt(now, it)[it..] == now[it + 1..];
  }

  lemma PassEnd(before: seq<Item>, keep: Item -> bool, it: nat, removed: nat, now: seq<Item>)
    requires Passed(before, keep, it, removed, now) && it == |now|
    ensures now == Keep(before, keep) && removed == |before| - |now|
  {
    assert before[..it + removed] == before && now[..it] == now;
  }

  class LruCache {
    const maxBytes: nat
    var order: seq<Handle>
    var nodes: map<Handle, Item>
    var index: map<string, Handle>
    var curBytes: int
    var evictions: nat
    var next: Handle

    ghost predicate Linked()
      reads this
    {
      Agree(order, nodes, index, curBytes, next)
    }

    ghost predicate Valid()
      reads this
    {
      Linked() && curBytes <= maxBytes
    }

    ghost function Contents(): seq<Item>
      requires Linked()
      reads this
    {
      Items(order, nodes)
    }

    constructor (maxBytes: nat)
      ensures Valid() && this.maxBytes == maxBytes && Contents() == [] && evictions == 0
    {
      this.maxBytes := maxBytes;
      order, nodes, index := [], map[], map[];
      curBytes, evictions, next := 0, 0, 0;
    }

    // Where a key's node is in the list; the iterator in the index knows.
    method Position(key: string) returns (p: nat)
      requires Linked() && key in index
      ensures p < |order| && order[p] == index[key] && Contents()[p].key == key
      ensures Without(Contents(), key) == CutAt(Contents(), p) && ItemOf(Contents(), key) == Some(Contents()[p])
    {
      p :| 0 <= p < |order| && order[p] == index[key];
      KeyPresent(order, nodes, index, curBytes, next, p);
    }

    // The node at p becomes the first of the list.
    method MoveToFront(p: nat)
      requires Linked() && p < |order|
      modifies this`order
      ensures Linked()
      ensures Contents() == [old(Contents()[p])] + CutAt(old(Contents()), p)
    {
      FrontAgrees(order, nodes, index, curBytes, next, p);
      order := [order[p]] + CutAt(order, p);
    }

    // The node at p goes out of the counter, the index and the list.
    method RemoveAt(p: nat)
      requires Linked() && p < |order|
      modifies this`order, this`nodes, this`index, this`curBytes
      ensures Linked()
      ensures Contents() == CutAt(old(Contents()), p) && curBytes <= old(curBytes)
    {
      var h := order[p];
      CutAgrees(order, nodes, index, curBytes, next, p);
      curBytes := curBytes - nodes[h].bytes;
      index := index - {nodes[h].key};
      order := CutAt(order, p);
      nodes := nodes - {h};
    }

    // Overwrite the node at p: its entry, its size and the counter.
    method Overwrite(p: nat, item: Item)
      requires Linked() && p < |order| && Contents()[p].key == item.key
      modifies this`nodes, this`curBytes
      ensures Linked()
      ensures Contents() == old(Contents())[p := item]
    {
      var h := order[p];
      UpdateAgrees(order, nodes, index, curBytes, next, p, item);
      curBytes := curBytes - nodes[h].bytes;
      nodes := nodes[h := item];
      curBytes := curBytes + item.bytes;
    }

    method PushFront(item: Item)
      requires Linked() && item.key !in index
      modifies this`order, this`nodes, this`index, this`curBytes, this`next
      ensures Linked()
      ensures Contents() == [item] + old(Contents())
    {
      PushAgrees(order, nodes, index, curBytes, next, item);
      order := [next] + order;
      nodes := nodes[next := item];
      index := index[item.key := next];
      next := next + 1;
      curBytes := curBytes + item.bytes;
    }

    method Get(key: string) returns (found: Option<Entry>)
      requires Valid()
      modifies this`order
      ensures Valid()
      ensures Contents() == Touched(old(Contents()), key)
      ensures found == (match ItemOf(old(Contents()), key) case None => None case Some(x) => Some(x.entry))
    {
      if key !in index {
        KeyAbsent(order, nodes, index, curBytes, next, key);
        return None;
      }
      var p := Position(key);
      found := Some(nodes[order[p]].entry);
      MoveToFront(p);
    }

    method Put(key: string, entry: Entry)
      requires Valid()
      modifies this
      ensures Valid()
      ensures Contents() == Stored(old(Contents()), key, entry, maxBytes)
      ensures evictions == old(evictions) + 1 + |Without(old(Contents()), key)| - |Contents()|
    {
      var item := Item(key, entry, SizeBytes(entry.payload));
      if key in index {
        var p := Position(key);
        Overwrite(p, item);
        CutOverwritten(old(Contents()), p, item);
        MoveToFront(p);
      } else {
        KeyAbsent(order, nodes, index, curBytes, next, key);
        PushFront(item);
      }
      assert Contents() == [item] + Without(old(Contents()), key);
      EvictToFit();
    }

    lemma CutOverwritten(items: seq<Item>, p: nat, x: Item)
      requires p < |items|
      ensures CutAt(items[p := x], p) == CutAt(items, p)
    {
      assert items[p := x][..p] == items[..p] && items[p := x][p + 1..] == items[p + 1..];
    }

    method EvictToFit()
      requires Linked()
      modifies this
      ensures Valid()
      ensures Contents() == Fit(old(Contents()), maxBytes)
      ensures evictions == old(evictions) + |old(Contents())| - |Contents()|
    {
      ghost var before := Contents();
      ghost var n := |before|;
      assert before[..n] == before;
      while curBytes > maxBytes && order != []
        invariant Linked() && n == |order| <= |before|
        invariant Contents() == before[..n]
        invariant n < |before| ==> Total(before[..n + 1]) > maxBytes
        invariant evictions == old(evictions) + |before| - n
        decreases |order|
      {
        CutLast(before, n);
        RemoveAt(|order| - 1);
        evictions := evictions + 1;
        n := n - 1;
      }
      FitIs(before, maxBytes, n);
    }

    lemma CutLast(items: seq<Item>, n: nat)
      requires 0 < n <= |items|
      ensures CutAt(items[..n], n - 1) == items[..n - 1]
    {
    }

    method Erase(key: string) returns (found: bool)
      requires Valid()
      modifies this
      ensures Valid() && evictions == old(evictions)
      ensures Contents() == Without(old(Contents()), key)
      ensures found == ItemOf(old(Contents()), key).Some?
    {
      if key !in index {
        KeyAbsent(order, nodes, index, curBytes, next, key);
        return false;
      }
      var p := Position(key);
      RemoveAt(p);
      return true;
    }

    // The pass that purge and sweepExpired share: walk the list, removing each node that is not kept.
    method RemoveUnless(keep: Item -> bool) returns (removed: nat)
      requires Valid()
      modifies this
      ensures Valid() && evictions == old(evictions)
      ensures Contents() == Keep(old(Contents()), keep)
      ensures removed == |old(Contents())| - |Contents()|
    {
      ghost var before := Contents();
      removed := 0;
      var it := 0;
      while it < |order|
        invariant Linked() && curBytes <= maxBytes && evictions == old(evictions)
        invariant it <= |order| && Passed(before, keep, it, removed, Contents())
        decreases |order| - it
      {
        PassNext(before, keep, it, removed, Contents());
        if !keep(nodes[order[it]]) {
          RemoveAt(it);
          removed := removed + 1;
        } else {
          it := it + 1;
        }
      }
      PassEnd(before, keep, it, removed, Contents());
    }

    method Purge(pattern: string) returns (removed: nat)
      requires Valid()
      modifies this
      ensures Valid() && evictions == old(evictions)
      ensures Contents() == Purged(old(Contents()), pattern)
      ensures removed == |old(Contents())| - |Contents()|
    {
      removed := RemoveUnless(Uncovered(pattern));
    }

    method SweepExpired(now: int) returns (removed: nat)
      requires Valid()
      modifies this
      ensures Valid() && evictions == old(evictions)
      ensures Contents() == Swept(old(Contents()), now)
      ensures removed == |old(Contents())| - |Contents()|
    {
      removed := RemoveUnless(Unexpired(now));
    }

    method SizeInBytes() returns (n: int)
      requires Valid()
      ensures n == Total(Contents()) && n <= maxBytes
    {
      return curBytes;
    }

    method Count() returns (n: nat)
      requires Valid()
      ensures n == |Contents()|
    {
      AgreeCount(order, nodes, index, curBytes, next);
      return |index|;
    }
  }

  // The index has as many keys as the list has nodes.
  lemma {:induction false} AgreeCount(order: seq<Handle>, nodes: map<Handle, Item>, index: map<string, Handle>,
                                      bytes: int, next: Handle)
    requires Agree(order, nodes, index, bytes, next)
    ensures |index| == |order|
    decreases |order|
  {
    if order == [] {
      assert nodes.Keys == {};
      assert index.Keys == {};
    } else {
      var x := nodes[order[0]];
      CutAgrees(order, nodes, index, bytes, next, 0);
      AgreeCount(CutAt(order, 0), nodes - {order[0]}, index - {x.key}, bytes - x.bytes, next);
      assert index.Keys == (index - {x.key}).Keys + {x.key};
    }
  }
}
