// The rules an operator sets per path pattern, and the policy that lets them override the origin's headers.
module RuleStores {
  import opened Wrappers
  import opened Strings
  import opened HttpHeaders
  import opened Patterns
  import opened CachePolicies

  datatype Rule = Rule(pathPattern: string, ttlSeconds: nat, swrSeconds: nat, originId: string)

  predicate LongestFirst(rules: seq<Rule>) {
    forall i, j :: 0 <= i < j < |rules| ==> |rules[i].pathPattern| >= |rules[j].pathPattern|
  }

  predicate Covers(r: Rule, path: string) {
    RuleMatches(r.pathPattern, path)
  }

  // The rule that governs a path: one that covers it, with no longer pattern covering it as well.
  ghost predicate Governs(rules: seq<Rule>, path: string, r: Rule) {
    && r in rules && Covers(r, path)
    && forall other :: other in rules && Covers(other, path) ==> |other.pathPattern| <= |r.pathPattern|
  }

  ghost predicate Ungoverned(rules: seq<Rule>, path: string) {
    forall r :: r in rules ==> !Covers(r, path)
  }

  // A stand-in for std::sort; which of two patterns of equal length comes first is not promised.
  method SortByLength(rules: seq<Rule>) returns (sorted: seq<Rule>)
    ensures multiset(sorted) == multiset(rules) && LongestFirst(sorted)
  {
    sorted := [];
    for i := 0 to |rules|
      invariant multiset(sorted) == multiset(rules[..i]) && LongestFirst(sorted)
    {
      sorted := Insert(sorted, rules[i]);
      assert rules[..i + 1] == rules[..i] + [rules[i]];
    }
    assert rules[..|rules|] == rules;
  }

  method Insert(s: seq<Rule>, r: Rule) returns (t: seq<Rule>)
    requires LongestFirst(s)
    ensures LongestFirst(t) && multiset(t) == multiset(s) + multiset{r}
  {
    var at := 0;
    while at < |s| && |s[at].pathPattern| >= |r.pathPattern|
      invariant at <= |s|
      invariant forall k :: 0 <= k < at ==> |s[k].pathPattern| >= |r.pathPattern|
    {
      at := at + 1;
    }
    InsertAt(s, at, r);
    t := s[..at] + [r] + s[at..];
  }

  lemma InsertAt(s: seq<Rule>, at: nat, r: Rule)
    requires at <= |s| && LongestFirst(s)
    requires forall k :: 0 <= k < at ==> |s[k].pathPattern| >= |r.pathPattern|
    requires at < |s| ==> |s[at].pathPattern| < |r.pathPattern|
    ensures LongestFirst(s[..at] + [r] + s[at..])
    ensures multiset(s[..at] + [r] + s[at..]) == multiset(s) + multiset{r}
  {
    assert s == s[..at] + s[at..];
    InOrder(s[..at], r, s[at..]);
    Counted(s[..at], r, s[at..]);
  }

  lemma InOrder(front: seq<Rule>, r: Rule, back: seq<Rule>)
    requires LongestFirst(front + back)
    requires forall k :: 0 <= k < |front| ==> |front[k].pathPattern| >= |r.pathPattern|
    requires back != [] ==> |back[0].pathPattern| < |r.pathPattern|
    ensures LongestFirst(front + [r] + back)
  {
    var old_, new_ := front + back, front + [r] + back;
    forall i, j | 0 <= i < j < |new_| ensures |new_[i].pathPattern| >= |new_[j].pathPattern| {
      if i < |front| && j > |front| {
        assert new_[i] == old_[i] && new_[j] == old_[j - 1];
      } else if i == |front| {
        assert new_[j] == old_[j - 1] && old_[|front|] == back[0];
      } else if i > |front| {
        assert new_[i] == old_[i - 1] && new_[j] == old_[j - 1];
      } else if j < |front| {
        assert new_[i] == old_[i] && new_[j] == old_[j];
      }
    }
  }

  lemma Counted(front: seq<Rule>, r: Rule, back: seq<Rule>)
    ensures multiset(front + [r] + back) == multiset(front + back) + multiset{r}
  {
  }

  class RuleStore {
    var rules: seq<Rule>
    var loaded: bool

    ghost predicate Valid()
      reads this
    {
      LongestFirst(rules)
    }

    constructor ()
      ensures Valid() && rules == [] && !loaded
    {
      rules, loaded := [], false;
    }

    method ReplaceAll(newRules: seq<Rule>)
      modifies this
      ensures Valid() && loaded && multiset(rules) == multiset(newRules)
    {
      rules := SortByLength(newRules);
      loaded := true;
    }

    // The first rule that covers the path.
    method Match(path: string) returns (r: Option<Rule>)
      requires Valid()
      ensures r.Some? ==> Governs(rules, path, r.value)
      ensures r.None? <==> Ungoverned(rules, path)
    {
      for i := 0 to |rules|
        invariant forall k :: 0 <= k < i ==> !Covers(rules[k], path)
      {
        if Covers(rules[i], path) {
          return Some(rules[i]);
        }
      }
      return None;
    }
  }

  // RuleOverridePolicy::decide. The rule counts whatever the response's headers say, except that a server error
  // is never stored; only a path without a rule is left to the headers.
  method DecideWithRules(store: RuleStore, defaultTtl: nat, path: string, status: int, headers: Headers)
    returns (d: Decision)
    requires store.Valid()
    ensures !Ungoverned(store.rules, path) ==>
              exists r :: Governs(store.rules, path, r)
                          && (d.cacheable <==> r.ttlSeconds > 0 && status < 500)
                          && (d.cacheable ==> d.ttlSeconds == r.ttlSeconds && d.swrSeconds == r.swrSeconds)
                          && d.reason == (if r.ttlSeconds == 0 then "rule-no-cache"
                                          else if status >= 500 then "rule-but-server-error"
                                          else "rule-override")
    ensures Ungoverned(store.rules, path) ==>
              var low := Lower(CacheControl(headers));
              && (d.cacheable <==> status in {200, 203, 204, 301, 404} && !Forbidden(low) && !Lifetime(low, Some(0)))
              && (d.cacheable ==>
                    Lifetime(low, Some(d.ttlSeconds)) || (Lifetime(low, None) && d.ttlSeconds == defaultTtl))
              && d.swrSeconds == 0
  {
    var rule := store.Match(path);
    if rule.Some? {
      if rule.value.ttlSeconds == 0 { return Refused("rule-no-cache"); }
      if status >= 500 { return Refused("rule-but-server-error"); }
      return Decision(true, rule.value.ttlSeconds, rule.value.swrSeconds, "rule-override");
    }
    d := Decide(defaultTtl, status, headers);
  }

  // The outcome does not depend on the order in which rules were listed, except among patterns of equal length:
  // two rules that govern the same path have patterns of the same length.
  lemma GovernorsTie(rules: seq<Rule>, shuffled: seq<Rule>, path: string, a: Rule, b: Rule)
    requires multiset(rules) == multiset(shuffled)
    requires Governs(rules, path, a) && Governs(shuffled, path, b)
    ensures |a.pathPattern| == |b.pathPattern| && Governs(rules, path, b)
  {
    forall r: Rule ensures r in rules <==> r in shuffled {
      assert r in rules <==> r in multiset(rules);
      assert r in shuffled <==> r in multiset(shuffled);
    }
  }
}
