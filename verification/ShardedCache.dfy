// The L1 cache of a replica: one LRU cache per shard, a key's shard chosen by its hash. All workers share it.
module ShardedCaches {
  import opened Wrappers
  import opened LruLists
  import opened LruCaches

  // std::hash is some function of the key.
  type Hash = string -> nat

  function Route(hash: Hash, n: nat, key: string): (s: nat)
    requires n > 0
    ensures s < n
  {
    hash(key) % n
  }

  // The budget of one shard.
  function PerShard(maxBytes: nat, n: nat): nat
    requires n > 0
  {
    if maxBytes / n == 0 then maxBytes else maxBytes / n
  }

  function TotalAll(shards: seq<seq<Item>>): nat {
    if shards == [] then 0 else Total(shards[0]) + TotalAll(shards[1..])
  }

  function CountAll(shards: seq<seq<Item>>): nat {
    if shards == [] then 0 else |shards[0]| + CountAll(shards[1..])
  }

  function KeepInAll(shards: seq<seq<Item>>, keep: Item -> bool): seq<seq<Item>> {
    seq(|shards|, i requires 0 <= i < |shards| => Keep(shards[i], keep))
  }

  lemma {:induction false} TotalAllSnoc(a: seq<seq<Item>>, last: seq<Item>)
    ensures TotalAll(a + [last]) == TotalAll(a) + Total(last)
    ensures CountAll(a + [last]) == CountAll(a) + |last|
  {
    if a != [] {
      assert (a + [last])[1..] == a[1..] + [last];
      TotalAllSnoc(a[1..], last);
    }
  }

  class ShardedCache {
    const hash: Hash
    var shards: seq<LruCache>

    ghost predicate Valid()
      reads this, shards
    {
      && |shards| > 0
      && (forall i, j :: 0 <= i < j < |shards| ==> shards[i] != shards[j])
      && (forall i :: 0 <= i < |shards| ==> shards[i].Valid() && shards[i].maxBytes == shards[0].maxBytes)
    }

    ghost function Budget(): nat
      requires |shards| > 0
      reads this, shards
    {
      shards[0].maxBytes
    }

    // What each shard contains.
    ghost function Contents(): (c: seq<seq<Item>>)
      requires Valid()
      reads this, shards
      ensures |c| == |shards|
    {
      seq(|shards|, i requires 0 <= i < |shards| && Valid() reads this, shards => shards[i].Contents())
    }

    constructor (maxBytes: nat, shardCount: nat, hash: Hash)
      ensures Valid() && fresh(shards) && this.hash == hash
      ensures |shards| == (if shardCount == 0 then 1 else shardCount)
      ensures Budget() == PerShard(maxBytes, |shards|)
      ensures forall i :: 0 <= i < |shards| ==> Contents()[i] == []
    {
      this.hash := hash;
      var n := if shardCount == 0 then 1 else shardCount;
      var perShard := maxBytes / n;
      if perShard == 0 {
        perShard := maxBytes;
      }
      var made := ShardedCache.NewShards(n, perShard);
      shards := made;
    }

    // The loop of the constructor.
    static method NewShards(n: nat, perShard: nat) returns (made: seq<LruCache>)
      ensures |made| == n && fresh(made)
      ensures forall j, k :: 0 <= j < k < n ==> made[j] != made[k]
      ensures forall j :: 0 <= j < n ==>
                made[j].Valid() && made[j].maxBytes == perShard && made[j].Contents() == []
    {
      made := [];
      for i := 0 to n
        invariant |made| == i && fresh(made)
        invariant forall j, k :: 0 <= j < k < i ==> made[j] != made[k]
        invariant forall j :: 0 <= j < i ==>
                    made[j].Valid() && made[j].maxBytes == perShard && made[j].Contents() == []
      {
        var shard := new LruCache(perShard);
        made := made + [shard];
      }
    }

    method Get(key: string) returns (found: Option<Entry>)
      requires Valid()
      modifies shards
      ensures Valid() && shards == old(shards)
      ensures var s := Route(hash, |shards|, key);
              && Contents() == old(Contents())[s := Touched(old(Contents())[s], key)]
              && found == (match ItemOf(old(Contents())[s], key) case None => None case Some(x) => Some(x.entry))
    {
      var s := Route(hash, |shards|, key);
      found := shards[s].Get(key);
    }

    method Put(key: string, entry: Entry)
      requires Valid()
      modifies shards
      ensures Valid() && shards == old(shards)
      ensures var s := Route(hash, |shards|, key);
              Contents() == old(Contents())[s := Stored(old(Contents())[s], key, entry, Budget())]
    {
      var s := Route(hash, |shards|, key);
      shards[s].Put(key, entry);
    }

    method Erase(key: string) returns (found: bool)
      requires Valid()
      modifies shards
      ensures Valid() && shards == old(shards)
      ensures var s := Route(hash, |shards|, key);
              && Contents() == old(Contents())[s := Without(old(Contents())[s], key)]
              && found == ItemOf(old(Contents())[s], key).Some?
    {
      var s := Route(hash, |shards|, key);
      found := shards[s].Erase(key);
    }

    method PurgeShard(i: nat, pattern: string) returns (removed: nat)
      requires Valid() && i < |shards|
      modifies shards
      ensures Valid() && shards == old(shards)
      ensures Contents() == old(Contents())[i := Keep(old(Contents())[i], Uncovered(pattern))]
      ensures removed == |old(Contents())[i]| - |Contents()[i]|
    {
      removed := shards[i].Purge(pattern);
    }

    method Purge(pattern: string) returns (n: nat)
      requires Valid()
      modifies shards
      ensures Valid() && shards == old(shards)
      ensures Contents() == KeepInAll(old(Contents()), Uncovered(pattern))
      ensures n == CountAll(old(Contents())) - CountAll(Contents())
    {
      n := 0;
      ghost var before := Contents();
      ghost var after := KeepInAll(before, Uncovered(pattern));
      Ends(before, after);
      for i := 0 to |shards|
        invariant Valid() && shards == old(shards)
        invariant Contents() == after[..i] + before[i..]
        invariant n == CountAll(before[..i]) - CountAll(after[..i])
      {
        var removed := PurgeShard(i, pattern);
        n := n + removed;
        Advance(before, after, i);
      }
    }

    method SweepExpiredShard(i: nat, now: int) returns (removed: nat)
      requires Valid() && i < |shards|
      modifies shards
      ensures Valid() && shards == old(shards)
      ensures Contents() == old(Contents())[i := Keep(old(Contents())[i], Unexpired(now))]
      ensures removed == |old(Contents())[i]| - |Contents()[i]|
    {
      removed := shards[i].SweepExpired(now);
    }

    method SweepExpired(now: int) returns (n: nat)
      requires Valid()
      modifies shards
      ensures Valid() && shards == old(shards)
      ensures Contents() == KeepInAll(old(Contents()), Unexpired(now))
      ensures n == CountAll(old(Contents())) - CountAll(Contents())
    {
      n := 0;
      ghost var before := Contents();
      ghost var after := KeepInAll(before, Unexpired(now));
      Ends(before, after);
      for i := 0 to |shards|
        invariant Valid() && shards == old(shards)
        invariant Contents() == after[..i] + before[i..]
        invariant n == CountAll(before[..i]) - CountAll(after[..i])
      {
        var removed := SweepExpiredShard(i, now);
        n := n + removed;
        Advance(before, after, i);
      }
    }

    lemma Ends(before: seq<seq<Item>>, after: seq<seq<Item>>)
      requires |before| == |after|
      ensures after[..0] + before[0..] == before && after[..|after|] + before[|before|..] == after
      ensures before[..|before|] == before && after[..|after|] == after
    {
    }

    lemma Advance(before: seq<seq<Item>>, after: seq<seq<Item>>, i: nat)
      requires |before| == |after| && i < |before|
      ensures (after[..i] + before[i..])[i] == before[i]
      ensures (after[..i] + before[i..])[i := after[i]] == after[..i + 1] + before[i + 1..]
      ensures CountAll(before[..i + 1]) == CountAll(before[..i]) + |before[i]|
      ensures CountAll(after[..i + 1]) == CountAll(after[..i]) + |after[i]|
    {
      SnocAt(before, i);
      SnocAt(after, i);
    }

    lemma SnocAt(c: seq<seq<Item>>, i: nat)
      requires i < |c|
      ensures CountAll(c[..i + 1]) == CountAll(c[..i]) + |c[i]|
      ensures TotalAll(c[..i + 1]) == TotalAll(c[..i]) + Total(c[i])
    {
      assert c[..i + 1] == c[..i] + [c[i]];
      TotalAllSnoc(c[..i], c[i]);
    }

    method SizeInBytes() returns (n: int)
      requires Valid()
      ensures n == TotalAll(Contents())
    {
      n := 0;
      for i := 0 to |shards|
        invariant n == TotalAll(Contents()[..i])
      {
        var bytes := shards[i].SizeInBytes();
        n := n + bytes;
        SnocAt(Contents(), i);
      }
      assert Contents()[..|shards|] == Contents();
    }

    method Count() returns (n: nat)
      requires Valid()
      ensures n == CountAll(Contents())
    {
      n := 0;
      for i := 0 to |shards|
        invariant n == CountAll(Contents()[..i])
      {
        var count := shards[i].Count();
        n := n + count;
        SnocAt(Contents(), i);
      }
      assert Contents()[..|shards|] == Contents();
    }
  }
}
