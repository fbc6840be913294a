// Which origin responses may be stored, and for how long: Cache-Control directives, and rules that override them.
module CachePolicies {
  import opened Wrappers
  import opened Strings
  import opened Numbers
  import opened HttpHeaders

  // ---------------------------------------------------------------------------------------------
  // Directives.

  const LONG_MAX := LLONG_MAX

  predicate Separator(c: char) {
    c == ',' || c == ' '
  }

  // The directive stands at p, between boundaries. A zero byte counts as the end of the header.
  predicate Delimited(low: string, directive: string, p: nat) {
    && OccursAt(low, directive, p)
    && (p == 0 || Separator(low[p - 1]))
    && var after := p + |directive|;
       (after == |low| || low[after] == '\0' || Separator(low[after]) || low[after] == '=')
  }

  predicate FirstDelimited(low: string, directive: string, p: nat) {
    Delimited(low, directive, p) && forall q: nat :: q < p ==> !Delimited(low, directive, q)
  }

  ghost predicate HasDelimited(low: string, directive: string) {
    exists p: nat :: Delimited(low, directive, p)
  }

  // The digits behind "=", if there are any and they fit a long.
  function Argument(low: string, after: nat): Option<int>
    requires after <= |low|
  {
    if after == |low| || low[after] != '=' then None
    else
      var digits := low[after + 1..];
      var n := DigitCount(digits);
      if n == 0 || DigitsValue(digits[..n]) > LONG_MAX then None else Some(DigitsValue(digits[..n]))
  }

  ghost predicate Says(low: string, directive: string, value: Option<int>) {
    exists p: nat :: FirstDelimited(low, directive, p) && value == Argument(low, p + |directive|)
  }

  // No directive contains a separator, so none is found across one.
  predicate Plain(directive: string) {
    directive != "" && forall i :: 0 <= i < |directive| ==> !Separator(directive[i])
  }

  // Skipping to the end of an occurrence that is not delimited skips no delimited one.
  lemma NothingSkipped(low: string, directive: string, p: nat, q: nat)
    requires Plain(directive) && OccursAt(low, directive, p) && p < q < p + |directive|
    ensures !Delimited(low, directive, q)
  {
    assert low[q - 1] == low[p..p + |directive|][q - 1 - p] == directive[q - 1 - p];
  }

  ghost predicate NoneBefore(low: string, directive: string, pos: nat) {
    forall q: nat :: q < pos ==> !Delimited(low, directive, q)
  }

  lemma NextOccurrence(low: string, directive: string, from: nat)
    requires NoneBefore(low, directive, from)
    ensures match FindStr(low, directive, from)
            case Some(p) => NoneBefore(low, directive, p)
            case None => !HasDelimited(low, directive)
  {
  }

  lemma Skipped(low: string, directive: string, p: nat)
    requires Plain(directive) && OccursAt(low, directive, p)
    requires NoneBefore(low, directive, p) && !Delimited(low, directive, p)
    ensures NoneBefore(low, directive, p + |directive|)
  {
    forall q: nat | q < p + |directive| ensures !Delimited(low, directive, q) {
      if p < q {
        NothingSkipped(low, directive, p, q);
      }
    }
  }

  // hasDirective: looks for a delimited occurrence, continuing behind each occurrence that is not. The value is
  // None when *outValue is left alone. It is exact: it answers yes if and only if some occurrence anywhere in the
  // header is delimited, and the value is that of the first one.
  method HasDirective(cc: string, directive: string) returns (found: bool, value: Option<int>)
    requires Plain(directive)
    ensures found <==> HasDelimited(Lower(cc), directive)
    ensures found ==> Says(Lower(cc), directive, value)
    ensures !found ==> value == None
  {
    value := None;
    var low := Lower(cc);
    var pos: nat := 0;
    while true
      invariant NoneBefore(low, directive, pos)
      decreases |low| - pos
    {
      NextOccurrence(low, directive, pos);
      var next := FindStr(low, directive, pos);
      if next.None? {
        return false, None;
      }
      pos := next.value;
      var boundaryBefore := pos == 0 || Separator(low[pos - 1]);
      var after := pos + |directive|;
      var nextCh := if after < |low| then low[after] else '\0';
      var boundaryAfter := nextCh == '\0' || Separator(nextCh) || nextCh == '=';
      if boundaryBefore && boundaryAfter {
        assert FirstDelimited(low, directive, pos);
        value := ReadArgument(low, after, nextCh);
        return true, value;
      }
      Skipped(low, directive, pos);
      pos := after;
    }
  }

  // What follows the directive, of which nextCh is the first character.
  method ReadArgument(low: string, after: nat, nextCh: char) returns (value: Option<int>)
    requires after <= |low| && nextCh == (if after < |low| then low[after] else '\0')
    ensures value == Argument(low, after)
  {
    value := None;
    if nextCh == '=' {
      value := ReadNumber(low, after);
    }
  }

  method ReadNumber(low: string, after: nat) returns (value: Option<int>)
    requires after < |low| && low[after] == '='
    ensures value == Argument(low, after)
  {
    var numStart := after + 1;
    var numEnd := numStart;
    var digits := low[numStart..];
    while numEnd < |low| && IsDigit(low[numEnd])
      invariant numStart <= numEnd <= |low| && AllDigits(digits[..numEnd - numStart])
    {
      assert digits[numEnd - numStart] == low[numEnd];
      numEnd := numEnd + 1;
    }
    DigitCountIs(digits, numEnd - numStart);
    if numEnd > numStart {
      assert low[numStart..numEnd] == digits[..numEnd - numStart];
      var v: int := DigitsValue(low[numStart..numEnd]);
      return if v > LONG_MAX then None else Some(v);
    }
    return None;
  }

  lemma {:induction false} DigitCountIs(s: string, n: nat)
    requires n <= |s| && AllDigits(s[..n]) && (n == |s| || !IsDigit(s[n]))
    ensures DigitCount(s) == n
  {
    if n > 0 {
      assert IsDigit(s[..n][0]);
      assert s[1..][..n - 1] == s[..n][1..];
      DigitCountIs(s[1..], n - 1);
    }
  }

  // ---------------------------------------------------------------------------------------------
  // Decisions.

  datatype Decision = Decision(cacheable: bool, ttlSeconds: nat, swrSeconds: nat, reason: string)

  function Refused(reason: string): Decision {
    Decision(false, 0, 0, reason)
  }

  predicate StatusCacheable(status: int) {
    status == 200 || status == 203 || status == 204 || status == 301 || status == 404
  }

  const NO_STORE := "no-store"
  const PRIVATE := "private"
  const NO_CACHE := "no-cache"
  const S_MAXAGE := "s-maxage"
  const MAX_AGE := "max-age"

  // The header forbids a shared cache to store the response.
  ghost predicate Forbidden(low: string) {
    HasDelimited(low, "no-store") || HasDelimited(low, "private") || HasDelimited(low, "no-cache")
  }

  // seconds is what the first delimited occurrence of the directive asks for; 0 if it has no readable number.
  ghost predicate Asks(low: string, directive: string, seconds: int) {
    exists value :: Says(low, directive, value) && seconds == Seconds(value)
  }

  function Seconds(value: Option<int>): int {
    if value.Some? then value.value else 0
  }

  // s-maxage counts before max-age; with neither there is no limit in the header.
  ghost predicate Lifetime(low: string, seconds: Option<int>) {
    match seconds
    case Some(n) =>
      if HasDelimited(low, "s-maxage") then Asks(low, "s-maxage", n)
      else Asks(low, "max-age", n)
    case None => !HasDelimited(low, "s-maxage") && !HasDelimited(low, "max-age")
  }

  function CacheControl(headers: Headers): string {
    match HeaderOf(headers, "Cache-Control") case None => "" case Some(v) => v
  }

  method ReadLifetime(cc: string) returns (ttl: int)
    ensures if ttl < 0 then Lifetime(Lower(cc), None) else Lifetime(Lower(cc), Some(ttl))
  {
    ttl := -1;
    var found, v := HasDirective(cc, S_MAXAGE);
    if found {
      ttl := Seconds(v);
      return;
    }
    found, v := HasDirective(cc, MAX_AGE);
    if found {
      ttl := Seconds(v);
    }
  }

  // no-store is named before private, and private before no-cache.
  ghost predicate Because(low: string, reason: string) {
    if HasDelimited(low, "no-store") then reason == "no-store"
    else if HasDelimited(low, "private") then reason == "private"
    else reason == "no-cache"
  }

  method RefusedBy(cc: string) returns (reason: Option<string>)
    ensures reason.Some? <==> Forbidden(Lower(cc))
    ensures reason.Some? ==> Because(Lower(cc), reason.value)
  {
    var found, v := HasDirective(cc, NO_STORE);
    if found { return Some("no-store"); }
    found, v := HasDirective(cc, PRIVATE);
    if found { return Some("private"); }
    found, v := HasDirective(cc, NO_CACHE);
    return if found then Some("no-cache") else None;
  }

  // HeaderBasedPolicy::decide
  method Decide(defaultTtl: nat, status: int, headers: Headers) returns (d: Decision)
    ensures var low := Lower(CacheControl(headers));
            d.cacheable <==>
              status in {200, 203, 204, 301, 404} && !Forbidden(low) && !Lifetime(low, Some(0))
    ensures var low := Lower(CacheControl(headers));
            d.cacheable ==> Lifetime(low, Some(d.ttlSeconds)) || (Lifetime(low, None) && d.ttlSeconds == defaultTtl)
    ensures d.swrSeconds == 0 && (!d.cacheable ==> d.ttlSeconds == 0)
    ensures var low := Lower(CacheControl(headers));
            if status !in {200, 203, 204, 301, 404} then d.reason == "status-not-cacheable"
            else if Forbidden(low) then Because(low, d.reason)
            else if Lifetime(low, None) then d.reason == "heuristic-default-ttl"
            else d.reason == (if d.cacheable then "origin-max-age" else "max-age-0")
  {
    if !StatusCacheable(status) { return Refused("status-not-cacheable"); }
    var cc := CacheControl(headers);
    var reason := RefusedBy(cc);
    if reason.Some? { return Refused(reason.value); }
    var ttl := ReadLifetime(cc);
    if ttl < 0 {
      LifetimeUnique(Lower(cc), None, Some(0));
      return Decision(true, defaultTtl, 0, "heuristic-default-ttl");
    }
    if ttl == 0 { return Refused("max-age-0"); }
    LifetimeUnique(Lower(cc), Some(ttl), Some(0));
    return Decision(true, ttl, 0, "origin-max-age");
  }

  // A header asks for at most one lifetime.
  lemma LifetimeUnique(low: string, a: Option<int>, b: Option<int>)
    ensures Lifetime(low, a) && Lifetime(low, b) ==> a == b
  {
    AsksOnce(low, S_MAXAGE);
    AsksOnce(low, MAX_AGE);
  }

  lemma AsksOnce(low: string, directive: string)
    ensures forall m, n :: Asks(low, directive, m) && Asks(low, directive, n) ==> m == n
    ensures forall n :: Asks(low, directive, n) ==> HasDelimited(low, directive)
  {
    forall m, n | Asks(low, directive, m) && Asks(low, directive, n) ensures m == n {
      var v :| Says(low, directive, v) && m == Seconds(v);
      var w :| Says(low, directive, w) && n == Seconds(w);
      SaysOneThing(low, directive, v, w);
    }
  }

  lemma SaysOneThing(low: string, directive: string, v: Option<int>, w: Option<int>)
    requires Says(low, directive, v) && Says(low, directive, w)
    ensures v == w
  {
    var p := SaysFirst(low, directive, v);
    var q := SaysFirst(low, directive, w);
    FirstUnique(low, directive, p, q);
  }

  lemma SaysFirst(low: string, directive: string, value: Option<int>) returns (p: nat)
    requires Says(low, directive, value)
    ensures FirstDelimited(low, directive, p) && value == Argument(low, p + |directive|)
  {
    p :| FirstDelimited(low, directive, p) && value == Argument(low, p + |directive|);
  }

  lemma FirstUnique(low: string, directive: string, p: nat, q: nat)
    requires FirstDelimited(low, directive, p) && FirstDelimited(low, directive, q)
    ensures p == q
  {
    assert p < q ==> !Delimited(low, directive, p);
    assert q < p ==> !Delimited(low, directive, q);
  }
}
