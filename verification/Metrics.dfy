// The origin latency histogram, whose count is the number of origin fetches in the accounting law.
module Metrics {

  const BOUNDS: seq<real> := [0.001, 0.005, 0.01, 0.05, 0.1, 0.5, 1.0, 5.0]

  // How many of the observations are at most the bound.
  function AtMost(seen: seq<real>, bound: real): (n: nat)
    ensures n <= |seen|
  {
    if seen == [] then 0 else AtMost(seen[..|seen| - 1], bound) + (if seen[|seen| - 1] <= bound then 1 else 0)
  }

  function Total(seen: seq<real>): real {
    if seen == [] then 0.0 else Total(seen[..|seen| - 1]) + seen[|seen| - 1]
  }

  class Histogram {
    const buckets: array<nat>
    var count: nat
    var sum: real
    ghost var seen: seq<real>

    ghost predicate Valid()
      reads this, buckets
    {
      && buckets.Length == |BOUNDS| && count == |seen| && sum == Total(seen)
      && forall i :: 0 <= i < |BOUNDS| ==> buckets[i] == AtMost(seen, BOUNDS[i])
    }

    constructor ()
      ensures Valid() && fresh(buckets) && seen == []
    {
      buckets := new nat[|BOUNDS|](_ => 0);
      count, sum, seen := 0, 0.0, [];
    }

    method Observe(seconds: real)
      requires Valid()
      modifies this, buckets
      ensures Valid() && seen == old(seen) + [seconds]
    {
      ghost var all := seen + [seconds];
      assert all[..|all| - 1] == seen;
      for i := 0 to |BOUNDS|
        invariant seen == old(seen) && count == old(count) && sum == old(sum)
        invariant forall k :: 0 <= k < i ==> buckets[k] == AtMost(all, BOUNDS[k])
        invariant forall k :: i <= k < |BOUNDS| ==> buckets[k] == AtMost(seen, BOUNDS[k])
      {
        if seconds <= BOUNDS[i] {
          buckets[i] := buckets[i] + 1;
        }
      }
      sum := sum + seconds;
      count := count + 1;
      seen := all;
    }
  }

  // The buckets are cumulative, as a Prometheus histogram has to be: none exceeds the next, nor the count.
  lemma {:induction false} Cumulative(seen: seq<real>, i: nat, j: nat)
    requires i <= j < |BOUNDS|
    ensures AtMost(seen, BOUNDS[i]) <= AtMost(seen, BOUNDS[j]) <= |seen|
  {
    if seen != [] {
      Cumulative(seen[..|seen| - 1], i, j);
    }
  }

  // What a bucket holds is how many observations there were that do not exceed its bound.
  lemma {:induction false} AtMostCounts(seen: seq<real>, bound: real)
    ensures AtMost(seen, bound) == |set i | 0 <= i < |seen| && seen[i] <= bound|
  {
    var all := set i | 0 <= i < |seen| && seen[i] <= bound;
    if seen == [] {
      assert all == {};
    } else {
      var front, last := seen[..|seen| - 1], |seen| - 1;
      AtMostCounts(front, bound);
      var before := set i | 0 <= i < |front| && front[i] <= bound;
      assert last !in before;
      assert all == (if seen[last] <= bound then before + {last} else before);
    }
  }
}
