// The three matchers that decide what a purge or a rule pattern covers: the proxy's L1 purge, the control
// plane's L2 purge, and the proxy's rule lookup.
module Patterns {
  import opened Wrappers
  import opened Strings
  import opened CacheKeys

  // proxy/src/cache/LRUCache.cpp
  function PathOfKey(key: string): string {
    match Find(key, '|', 0)
    case None => key
    case Some(p1) =>
      match Find(key, '|', p1 + 1)
      case None => key
      case Some(p2) =>
        match Find(key, '?', p2 + 1)
        case None => key[p2 + 1..]
        case Some(q) => key[p2 + 1..q]
  }

  predicate PurgeMatches(pattern: string, key: string) {
    var path := PathOfKey(key);
    if pattern == "*" || pattern == "/*" then true
    else if pattern != "" && pattern[|pattern| - 1] == '*' then StartsWith(path, pattern[..|pattern| - 1])
    else path == pattern
  }

  // What a purge leaves of a cache.
  function Spared<T>(cache: map<string, T>, pattern: string): map<string, T> {
    map k | k in cache && !PurgeMatches(pattern, k) :: cache[k]
  }

  function UntilQuestionMark(s: string): string {
    var q := Find(s, '?', 0);
    if q.Some? then s[..q.value] else s
  }

  // control-plane/src/redis/coordinator.ts: slice, indexOf and endsWith as TypeScript defines them.
  function L2PathOf(rest: string): string {
    var firstBar := Find(rest, '|', 0);
    var secondBar := if firstBar.Some? then Find(rest, '|', firstBar.value + 1) else None;
    UntilQuestionMark(if secondBar.Some? then rest[secondBar.value + 1..] else rest)
  }

  predicate L2PathMatches(l2KeyPrefix: string, key: string, pattern: string) {
    var path := L2PathOf(if |l2KeyPrefix| <= |key| then key[|l2KeyPrefix|..] else "");
    if pattern == "*" || pattern == "/*" then true
    else if |pattern| > 0 && pattern[|pattern| - 1] == '*' then StartsWith(path, pattern[..|pattern| - 1])
    else path == pattern
  }

  // proxy/src/redis/RuleStore.cpp
  predicate RuleMatches(pattern: string, path: string) {
    if pattern == "*" || pattern == "/*" then true
    else if pattern != "" && pattern[|pattern| - 1] == '*' then StartsWith(path, pattern[..|pattern| - 1])
    else pattern == path
  }

  // A star at the end stands for any text, and the patterns of all paths are "*" and "/*". A star elsewhere is itself.
  ghost predicate Globs(pattern: string, path: string) {
    || pattern == "*" || pattern == "/*"
    || pattern == path
    || exists prefix, rest :: pattern == prefix + "*" && path == prefix + rest
  }

  lemma GlobsByPrefix(pattern: string, path: string)
    requires Globs(pattern, path) && pattern != "*" && pattern != "/*"
    ensures if pattern != "" && pattern[|pattern| - 1] == '*' then StartsWith(path, pattern[..|pattern| - 1])
            else path == pattern
  {
    if pattern != path {
      var prefix, rest :| pattern == prefix + "*" && path == prefix + rest;
      assert pattern[..|pattern| - 1] == prefix;
    }
  }

  // A rule pattern covers what it says.
  lemma RulesGlob(pattern: string, path: string)
    ensures RuleMatches(pattern, path) <==> Globs(pattern, path)
  {
    if Globs(pattern, path) && pattern != "*" && pattern != "/*" {
      GlobsByPrefix(pattern, path);
    }
    if RuleMatches(pattern, path) && pattern != path && pattern != "*" && pattern != "/*" {
      var prefix := pattern[..|pattern| - 1];
      assert pattern == prefix + "*" && path == prefix + path[|prefix|..];
    }
  }

  // What the proxy extracts from the key of a request is its path,
  lemma PathOfRequestKey(key: string, m: string, host: string, path: string, tail: string)
    requires LaidOut(key, m, host, path, tail)
    requires '|' !in m && '|' !in host && '?' !in path && (tail == "" || tail[0] == '?')
    ensures PathOfKey(key) == path
  {
    KeyParts(key, m, host, path, tail);
    PathBehind(key, |m| + 1 + |host| + 1, path, tail);
  }

  lemma PathBehind(key: string, start: nat, path: string, tail: string)
    requires start + |path| <= |key| && key[start..start + |path|] == path && key[start + |path|..] == tail
    ensures tail == "" ==> key[start..] == path
  {
    if tail == "" {
      assert key[start..] == key[start..start + |path|];
    }
  }

  // and so is what the control plane extracts.
  lemma L2PathOfRequestKey(key: string, m: string, host: string, path: string, tail: string)
    requires LaidOut(key, m, host, path, tail)
    requires '|' !in m && '|' !in host && '?' !in path && (tail == "" || tail[0] == '?')
    ensures L2PathOf(key) == path
  {
    KeyParts(key, m, host, path, tail);
    var s := key[|m| + 1 + |host| + 1..];
    assert s[0..|path|] == path && s[|path|..] == tail;
    QuestionMarkAt(s, 0, path, tail);
    assert s[..|path|] == path && (tail == "" ==> s == path);
  }

  // On the key of any request the three agree, so a purge removes from L1 and L2 exactly the objects whose
  // path the same pattern would cover as a rule.
  lemma MatchersAgree(pattern: string, l2KeyPrefix: string, m: string, host: string, path: string, query: string)
    requires '|' !in m && '|' !in host && '?' !in path
    ensures var key := KeyText(m, host, path, query);
            && PurgeMatches(pattern, key) == RuleMatches(pattern, path)
            && L2PathMatches(l2KeyPrefix, l2KeyPrefix + key, pattern) == RuleMatches(pattern, path)
  {
    var key := KeyText(m, host, path, query);
    KeySlices(m, host, path, QueryTail(query));
    PathOfRequestKey(key, m, host, path, QueryTail(query));
    L2PathOfRequestKey(key, m, host, path, QueryTail(query));
    assert (l2KeyPrefix + key)[|l2KeyPrefix|..] == key;
  }

  // The bars after which both look for the path.
  predicate HasTwoBars(key: string) {
    var p1 := Find(key, '|', 0);
    p1.Some? && Find(key, '|', p1.value + 1).Some?
  }

  // Both agree on the path of any string with two bars, and of any string without a question mark.
  lemma SamePath(key: string)
    ensures HasTwoBars(key) || '?' !in key ==> PathOfKey(key) == L2PathOf(key)
    ensures !HasTwoBars(key) && '?' in key ==> PathOfKey(key) == key && '?' !in L2PathOf(key)
  {
    if HasTwoBars(key) {
      var p2 := Find(key, '|', Find(key, '|', 0).value + 1).value;
      FindInRest(key, '?', p2 + 1);
    } else {
      var q := Find(key, '?', 0);
      if q.Some? {
        var path := key[..q.value];
        forall j | 0 <= j < |path| ensures path[j] != '?' {
          assert path[j] == key[j];
        }
      }
    }
  }

  lemma FindInRest(s: string, c: char, from: nat)
    requires from <= |s|
    ensures var r, rest := Find(s, c, from), Find(s[from..], c, 0);
            (r.Some? <==> rest.Some?) && (r.Some? ==> r.value == from + rest.value)
  {
    var r, rest := Find(s, c, from), Find(s[from..], c, 0);
    if r.Some? {
      assert s[from..][r.value - from] == s[r.value];
    }
    if rest.Some? {
      assert s[from + rest.value] == s[from..][rest.value];
    }
    if r.Some? && rest.Some? {
      assert forall j :: from <= j < r.value ==> s[from..][j - from] == s[j];
    }
  }

  // A pattern that is a path with a question mark covers that path and no path without one.
  lemma OwnPattern(path: string, other: string)
    requires '?' in path && '?' !in other
    ensures RuleMatches(path, path) && !RuleMatches(path, other)
  {
    var n := |path| - 1;
    if path[n] == '*' {
      var j :| 0 <= j < |path| && path[j] == '?';
      assert path[..n][j] == '?';
      if n <= |other| {
        assert other[..n][j] == other[j] != '?';
      }
    }
  }

  // The L1 matcher and the L2 matcher give the same answer for every pattern exactly when the string has two bars,
  // as every key has, or no question mark.
  lemma MatchersAgreeExactly(l2KeyPrefix: string, key: string)
    ensures HasTwoBars(key) || '?' !in key <==>
            forall pattern :: PurgeMatches(pattern, key) == L2PathMatches(l2KeyPrefix, l2KeyPrefix + key, pattern)
  {
    SamePath(key);
    assert (l2KeyPrefix + key)[|l2KeyPrefix|..] == key;
    forall pattern
      ensures PurgeMatches(pattern, key) == RuleMatches(pattern, PathOfKey(key))
      ensures L2PathMatches(l2KeyPrefix, l2KeyPrefix + key, pattern) == RuleMatches(pattern, L2PathOf(key))
    {
    }
    if !HasTwoBars(key) && '?' in key {
      OwnPattern(key, L2PathOf(key));
      assert PurgeMatches(key, key) != L2PathMatches(l2KeyPrefix, l2KeyPrefix + key, key);
    }
  }
}
