// The control plane's eviction of the shared L2 tier: a SCAN loop that deletes what matches, while the proxies go
// on reading and writing.
module L2Purges {
  import opened Strings
  import opened Patterns

  // What the rest of the fleet does to Redis between two commands of the loop: keys expire, keys are set.
  datatype Changes<!T> = Changes(expired: set<string>, writes: map<string, T>)

  // One turn of the loop: changes, the reply to SCAN, and changes that come in before the deletion.
  datatype Round<!T> = Round(before: Changes<T>, keys: seq<string>, mid: Changes<T>)

  function Changed<T>(l2: map<string, T>, c: Changes<T>): map<string, T> {
    (l2 - c.expired) + c.writes
  }

  function Targets(prefix: string, pattern: string, keys: seq<string>): (r: set<string>)
    ensures forall k :: k in r <==> k in keys && L2PathMatches(prefix, k, pattern)
  {
    set k | k in keys && L2PathMatches(prefix, k, pattern)
  }

  predicate Written<T(==)>(k: string, v: T, r: Round<T>) {
    (k in r.before.writes && r.before.writes[k] == v) || (k in r.mid.writes && r.mid.writes[k] == v)
  }

  predicate Expired<T>(k: string, r: Round<T>) {
    k in r.before.expired || k in r.mid.expired
  }

  // What SCAN promises of a full iteration: a key that was there at the start and did not go away in the meantime is
  // reported at least once. It may be reported several times, and other keys may be reported or not.
  ghost predicate FullScan<T>(prefix: string, l2: map<string, T>, rounds: seq<Round<T>>) {
    forall k :: k in l2 && StartsWith(k, prefix) ==>
      exists i :: 0 <= i < |rounds| && (k in rounds[i].keys || Expired(k, rounds[i]))
  }

  ghost predicate WrittenIn<T>(k: string, v: T, rounds: seq<Round<T>>) {
    exists i :: 0 <= i < |rounds| && Written(k, v, rounds[i])
  }

  // The tier as it would be without the purge.
  function Undisturbed<T>(l2: map<string, T>, rounds: seq<Round<T>>): map<string, T>
    decreases |rounds|
  {
    if rounds == [] then l2
    else
      var last := rounds[|rounds| - 1];
      Changed(Changed(Undisturbed(l2, rounds[..|rounds| - 1]), last.before), last.mid)
  }

  // ---------------------------------------------------------------------------------------------
  // The loop.

  function AfterRound<T>(prefix: string, pattern: string, l2: map<string, T>, r: Round<T>): map<string, T> {
    Changed(Changed(l2, r.before), r.mid) - Targets(prefix, pattern, r.keys)
  }

  // DEL reports how many of the keys were there.
  function RemovedIn<T>(prefix: string, pattern: string, l2: map<string, T>, r: Round<T>): nat {
    |Changed(Changed(l2, r.before), r.mid).Keys * Targets(prefix, pattern, r.keys)|
  }

  function Purged<T>(prefix: string, pattern: string, l2: map<string, T>, rounds: seq<Round<T>>): map<string, T>
    decreases |rounds|
  {
    if rounds == [] then l2
    else AfterRound(prefix, pattern, Purged(prefix, pattern, l2, rounds[..|rounds| - 1]), rounds[|rounds| - 1])
  }

  function Removed<T>(prefix: string, pattern: string, l2: map<string, T>, rounds: seq<Round<T>>): nat
    decreases |rounds|
  {
    if rounds == [] then 0
    else
      var front := rounds[..|rounds| - 1];
      Removed(prefix, pattern, l2, front)
      + RemovedIn(prefix, pattern, Purged(prefix, pattern, l2, front), rounds[|rounds| - 1])
  }

  lemma PurgedSnoc<T>(prefix: string, pattern: string, l2: map<string, T>, rounds: seq<Round<T>>, i: nat)
    requires i < |rounds|
    ensures var l2' := Purged(prefix, pattern, l2, rounds[..i]);
            && Purged(prefix, pattern, l2, rounds[..i + 1]) == AfterRound(prefix, pattern, l2', rounds[i])
            && Removed(prefix, pattern, l2, rounds[..i + 1])
               == Removed(prefix, pattern, l2, rounds[..i]) + RemovedIn(prefix, pattern, l2', rounds[i])
  {
    assert rounds[..i + 1][..i] == rounds[..i];
  }

  class L2Tier<T(==)> {
    var entries: map<string, T>

    constructor (entries: map<string, T>)
      ensures this.entries == entries
    {
      this.entries := entries;
    }

    method Del(keys: set<string>) returns (n: nat)
      modifies this
      ensures entries == old(entries) - keys
      ensures n == |old(entries).Keys * keys|
    {
      n := |entries.Keys * keys|;
      entries := entries - keys;
    }

    method PurgeRound(prefix: string, pattern: string, r: Round<T>) returns (n: nat)
      modifies this
      ensures entries == AfterRound(prefix, pattern, old(entries), r)
      ensures n == RemovedIn(prefix, pattern, old(entries), r)
    {
      n := 0;
      entries := Changed(entries, r.before);
      var toDelete := Targets(prefix, pattern, r.keys);
      entries := Changed(entries, r.mid);
      if toDelete != {} {
        n := Del(toDelete);
      }
    }

    // purgeL2; the rounds are the replies of SCAN up to cursor "0", and what happens in between.
    method PurgeL2(prefix: string, pattern: string, rounds: seq<Round<T>>) returns (deleted: nat)
      modifies this
      ensures entries == Purged(prefix, pattern, old(entries), rounds)
      ensures deleted == Removed(prefix, pattern, old(entries), rounds)
    {
      deleted := 0;
      for i := 0 to |rounds|
        invariant entries == Purged(prefix, pattern, old(entries), rounds[..i])
        invariant deleted == Removed(prefix, pattern, old(entries), rounds[..i])
      {
        var n := PurgeRound(prefix, pattern, rounds[i]);
        deleted := deleted + n;
        PurgedSnoc(prefix, pattern, old(entries), rounds, i);
      }
      assert rounds[..|rounds|] == rounds;
    }
  }

  // ---------------------------------------------------------------------------------------------
  // What the purge achieves, while everybody goes on using the tier.

  ghost predicate Touched<T>(k: string, rounds: seq<Round<T>>) {
    exists i :: 0 <= i < |rounds| && (k in rounds[i].keys || Expired(k, rounds[i]))
  }

  lemma TouchedSnoc<T>(k: string, rounds: seq<Round<T>>)
    requires rounds != []
    ensures var n := |rounds| - 1;
            Touched(k, rounds) <==> Touched(k, rounds[..n]) || k in rounds[n].keys || Expired(k, rounds[n])
  {
    var n := |rounds| - 1;
    if Touched(k, rounds[..n]) {
      var i :| 0 <= i < n && (k in rounds[..n][i].keys || Expired(k, rounds[..n][i]));
      assert k in rounds[i].keys || Expired(k, rounds[i]);
    }
    if Touched(k, rounds) && !(k in rounds[n].keys || Expired(k, rounds[n])) {
      var i :| 0 <= i < |rounds| && (k in rounds[i].keys || Expired(k, rounds[i]));
      assert k in rounds[..n][i].keys || Expired(k, rounds[..n][i]);
    }
  }

  lemma WrittenSnoc<T>(k: string, v: T, rounds: seq<Round<T>>)
    requires rounds != []
    ensures var n := |rounds| - 1;
            WrittenIn(k, v, rounds[..n]) || Written(k, v, rounds[n]) ==> WrittenIn(k, v, rounds)
  {
    var n := |rounds| - 1;
    if WrittenIn(k, v, rounds[..n]) {
      var i :| 0 <= i < n && Written(k, v, rounds[..n][i]);
      assert Written(k, v, rounds[i]);
    }
  }

  // A matching object that is left was written while the purge was running, or was there from the start and was
  // neither reported nor expired.
  lemma {:induction false} Leftovers<T(!new)>(prefix: string, pattern: string, l2: map<string, T>,
                                              rounds: seq<Round<T>>, k: string)
    requires L2PathMatches(prefix, k, pattern) && k in Purged(prefix, pattern, l2, rounds)
    ensures var v := Purged(prefix, pattern, l2, rounds)[k];
            WrittenIn(k, v, rounds) || (k in l2 && v == l2[k] && !Touched(k, rounds))
    decreases |rounds|
  {
    if rounds != [] {
      var n := |rounds| - 1;
      var v := Purged(prefix, pattern, l2, rounds)[k];
      WrittenSnoc(k, v, rounds);
      TouchedSnoc(k, rounds);
      if !Written(k, v, rounds[n]) {
        Leftovers(prefix, pattern, l2, rounds[..n], k);
      }
    }
  }

  // With what SCAN promises: every matching object that is left was written while the purge was running. If nobody
  // writes old content meanwhile, no old content is left.
  lemma OnlyNewIsLeft<T(!new)>(prefix: string, pattern: string, l2: map<string, T>, rounds: seq<Round<T>>, k: string)
    requires FullScan(prefix, l2, rounds) && StartsWith(k, prefix) && L2PathMatches(prefix, k, pattern)
    requires k in Purged(prefix, pattern, l2, rounds)
    ensures WrittenIn(k, Purged(prefix, pattern, l2, rounds)[k], rounds)
  {
    Leftovers(prefix, pattern, l2, rounds, k);
  }

  // An object that does not match fares as if there were no purge.
  lemma {:induction false} OthersUndisturbed<T(!new)>(prefix: string, pattern: string, l2: map<string, T>,
                                                      rounds: seq<Round<T>>, k: string)
    requires !L2PathMatches(prefix, k, pattern)
    ensures k in Purged(prefix, pattern, l2, rounds) <==> k in Undisturbed(l2, rounds)
    ensures k in Undisturbed(l2, rounds) ==> Purged(prefix, pattern, l2, rounds)[k] == Undisturbed(l2, rounds)[k]
    decreases |rounds|
  {
    if rounds != [] {
      OthersUndisturbed(prefix, pattern, l2, rounds[..|rounds| - 1], k);
    }
  }

  predicate Still<T>(r: Round<T>) {
    r.before == Changes({}, map[]) && r.mid == Changes({}, map[])
  }

  lemma StillRound<T(!new)>(prefix: string, pattern: string, l2: map<string, T>, r: Round<T>)
    requires Still(r)
    ensures RemovedIn(prefix, pattern, l2, r) == |l2| - |AfterRound(prefix, pattern, l2, r)|
  {
    var keys := Targets(prefix, pattern, r.keys);
    assert Changed(l2, r.before) == l2 && Changed(l2, r.mid) == l2;
    Cardinalities(l2, keys);
  }

  lemma Cardinalities<T>(m: map<string, T>, keys: set<string>)
    ensures |m.Keys * keys| == |m| - |m - keys|
  {
    assert (m - keys).Keys == m.Keys - keys;
    assert m.Keys == (m.Keys - keys) + (m.Keys * keys);
  }

  // When nothing else happens, the number returned is the number of objects removed, however often SCAN reports
  // them.
  lemma {:induction false} CountIsExact<T(!new)>(prefix: string, pattern: string, l2: map<string, T>,
                                                 rounds: seq<Round<T>>)
    requires forall i :: 0 <= i < |rounds| ==> Still(rounds[i])
    ensures Removed(prefix, pattern, l2, rounds) == |l2| - |Purged(prefix, pattern, l2, rounds)|
    decreases |rounds|
  {
    if rounds != [] {
      var front := rounds[..|rounds| - 1];
      CountIsExact(prefix, pattern, l2, front);
      StillRound(prefix, pattern, Purged(prefix, pattern, l2, front), rounds[|rounds| - 1]);
    }
  }
}
