// The canonical cache key: METHOD|host|path, and ?query when the normalised query is not empty.
module CacheKeys {
  import opened Wrappers
  import opened Strings

  // The non-empty pieces between '&'s, in order of appearance.
  function Params(raw: string): seq<string>
    decreases |raw|
  {
    match Find(raw, '&', 0)
    case None => if raw == "" then [] else [raw]
    case Some(at) => (if at == 0 then [] else [raw[..at]]) + Params(raw[at + 1..])
  }

  predicate Sorted(s: seq<string>) {
    forall i, j :: 0 <= i < j < |s| ==> s[i] == s[j] || Below(s[i], s[j])
  }

  function Insert(x: string, s: seq<string>): (r: seq<string>)
    ensures multiset(r) == multiset(s) + multiset{x}
  {
    if s == [] then [x]
    else if s[0] == x || Below(x, s[0]) then [x] + s
    else
      assert s == [s[0]] + s[1..];
      [s[0]] + Insert(x, s[1..])
  }

  // std::sort on strings.
  function Sort(s: seq<string>): (r: seq<string>)
    ensures multiset(r) == multiset(s)
  {
    if s == [] then []
    else
      assert s == [s[0]] + s[1..];
      Insert(s[0], Sort(s[1..]))
  }

  function Join(params: seq<string>): string {
    if params == [] then ""
    else if |params| == 1 then params[0]
    else params[0] + "&" + Join(params[1..])
  }

  function Normalized(raw: string): string {
    Join(Sort(Params(raw)))
  }

  function Assemble(m: string, host: string, path: string, tail: string): string {
    m + "|" + host + "|" + path + tail
  }

  function QueryTail(rawQuery: string): string {
    if Normalized(rawQuery) == "" then "" else "?" + Normalized(rawQuery)
  }

  function KeyText(m: string, host: string, path: string, rawQuery: string): string {
    Assemble(m, host, path, QueryTail(rawQuery))
  }

  // normalizeQuery: split at '&' dropping empty pieces, sort, join.
  method NormalizeQuery(rawQuery: string) returns (out: string)
    ensures out == Normalized(rawQuery)
  {
    if rawQuery == "" {
      return "";
    }
    var params := SplitParams(rawQuery);
    params := Sort(params);
    out := JoinAll(params);
  }

  method JoinAll(params: seq<string>) returns (out: string)
    ensures out == Join(params)
  {
    out := "";
    for i := 0 to |params|
      invariant out == Join(params[..i])
    {
      if i > 0 {
        out := out + "&";
      }
      out := out + params[i];
      JoinSnoc(params[..i], params[i]);
      assert params[..i] + [params[i]] == params[..i + 1];
    }
    assert params[..|params|] == params;
  }

  method SplitParams(rawQuery: string) returns (params: seq<string>)
    ensures params == Params(rawQuery)
  {
    params := [];
    var pos := 0;
    while pos < |rawQuery|
      invariant 0 <= pos <= |rawQuery|
      invariant params + Params(rawQuery[pos..]) == Params(rawQuery)
      decreases |rawQuery| - pos
    {
      ghost var before, rest := params, Params(rawQuery[pos..]);
      PieceAt(rawQuery, pos);
      var at := Find(rawQuery, '&', pos);
      var end := if at.Some? then at.value else |rawQuery|;
      var cur := rawQuery[pos..end];
      if cur != "" {
        params := params + [cur];
      }
      pos := if at.Some? then end + 1 else end;
      ghost var piece := if cur == "" then [] else [cur];
      assert rest == piece + Params(rawQuery[pos..]);
      assert params == before + piece;
      Regroup(before, piece, Params(rawQuery[pos..]));
    }
  }

  lemma Regroup(a: seq<string>, b: seq<string>, c: seq<string>)
    ensures (a + b) + c == a + (b + c)
  {
  }

  method FromRequest(m: string, host: string, path: string, rawQuery: string) returns (key: string)
    ensures key == KeyText(m, host, path, rawQuery)
  {
    var q := NormalizeQuery(rawQuery);
    assert forall s: string :: s + "" == s;
    key := m;
    key := key + "|";
    key := key + host;
    key := key + "|";
    key := key + path;
    if q != "" {
      key := key + "?";
      key := key + q;
    }
  }

  // The first piece from pos on, and where the next one starts.
  lemma PieceAt(raw: string, pos: nat)
    requires pos <= |raw|
    ensures var at := Find(raw, '&', pos);
            var end := if at.Some? then at.value else |raw|;
            var next := if at.Some? then end + 1 else end;
            Params(raw[pos..]) == (if raw[pos..end] == "" then [] else [raw[pos..end]]) + Params(raw[next..])
  {
    var rest := raw[pos..];
    var at := Find(raw, '&', pos);
    if at.Some? {
      FindIs(rest, '&', 0, at.value - pos);
      assert rest[..at.value - pos] == raw[pos..at.value];
      assert rest[at.value - pos + 1..] == raw[at.value + 1..];
    } else {
      FindNone(rest, '&', 0);
      assert raw[pos..|raw|] == rest;
    }
  }

  lemma {:induction false} JoinSnoc(params: seq<string>, last: string)
    ensures Join(params + [last]) == (if params == [] then last else Join(params) + "&" + last)
  {
    if |params| > 0 {
      assert (params + [last])[1..] == params[1..] + [last];
      JoinSnoc(params[1..], last);
      if |params| > 1 {
        var tail := Join(params[1..]);
        assert params[0] + "&" + (tail + "&" + last) == (params[0] + "&" + tail) + "&" + last;
      }
    }
  }

  // ---------------------------------------------------------------------------------------------
  // What makes the key canonical.

  lemma HeadStaysLeast(x: string, s: seq<string>)
    requires s != [] && Sorted(s) && Below(s[0], x)
    ensures forall j :: 0 <= j < |Insert(x, s[1..])| ==>
              s[0] == Insert(x, s[1..])[j] || Below(s[0], Insert(x, s[1..])[j])
  {
    var tail := Insert(x, s[1..]);
    forall j | 0 <= j < |tail| ensures s[0] == tail[j] || Below(s[0], tail[j]) {
      assert tail[j] in multiset(tail);
      if tail[j] != x {
        assert tail[j] in multiset(s[1..]);
        var k :| 0 <= k < |s[1..]| && s[1..][k] == tail[j];
        assert s[k + 1] == tail[j];
      }
    }
  }

  lemma {:induction false} InsertSorted(x: string, s: seq<string>)
    requires Sorted(s)
    ensures Sorted(Insert(x, s))
  {
    if s != [] {
      var r := Insert(x, s);
      if s[0] == x || Below(x, s[0]) {
        forall j | 0 <= j < |s| ensures x == s[j] || Below(x, s[j]) {
          if x != s[0] && s[0] != s[j] {
            BelowTransitive(x, s[0], s[j]);
          }
        }
      } else {
        BelowTotal(x, s[0]);
        InsertSorted(x, s[1..]);
        HeadStaysLeast(x, s);
      }
    }
  }

  lemma {:induction false} SortSorts(s: seq<string>)
    ensures Sorted(Sort(s))
  {
    if s != [] {
      SortSorts(s[1..]);
      InsertSorted(s[0], Sort(s[1..]));
    }
  }

  lemma HeadIsLeast(a: seq<string>, x: string)
    requires Sorted(a) && x in multiset(a)
    ensures a[0] == x || Below(a[0], x)
  {
    var i :| 0 <= i < |a| && a[i] == x;
  }

  // A sorted list is determined by its elements.
  lemma {:induction false} SortedUnique(a: seq<string>, b: seq<string>)
    requires Sorted(a) && Sorted(b) && multiset(a) == multiset(b)
    ensures a == b
  {
    assert |multiset(a)| == |a| && |multiset(b)| == |b|;
    if a != [] {
      assert a[0] in multiset(b) && b[0] in multiset(a);
      HeadIsLeast(a, b[0]);
      HeadIsLeast(b, a[0]);
      BelowTotal(a[0], b[0]);
      assert a == [a[0]] + a[1..] && b == [b[0]] + b[1..];
      assert multiset(a[1..]) == multiset(a) - multiset{a[0]};
      SortedUnique(a[1..], b[1..]);
    }
  }

  lemma SortCanonical(a: seq<string>, b: seq<string>)
    ensures Sort(a) == Sort(b) <==> multiset(a) == multiset(b)
  {
    SortSorts(a);
    SortSorts(b);
    if multiset(a) == multiset(b) {
      SortedUnique(Sort(a), Sort(b));
    }
  }

  predicate ProperParams(params: seq<string>) {
    forall i :: 0 <= i < |params| ==> params[i] != "" && '&' !in params[i]
  }

  lemma {:induction false} ParamsProper(raw: string)
    ensures ProperParams(Params(raw))
    decreases |raw|
  {
    var at := Find(raw, '&', 0);
    if at.Some? {
      ParamsProper(raw[at.value + 1..]);
    }
  }

  lemma SortProper(params: seq<string>)
    requires ProperParams(params)
    ensures ProperParams(Sort(params))
  {
    forall i | 0 <= i < |Sort(params)| ensures Sort(params)[i] != "" && '&' !in Sort(params)[i] {
      assert Sort(params)[i] in multiset(params);
    }
  }

  // Splitting what Join wrote gives the parameters back.
  lemma {:induction false} ParamsOfJoin(params: seq<string>)
    requires ProperParams(params)
    ensures Params(Join(params)) == params
  {
    if |params| == 1 {
      FindNone(params[0], '&', 0);
    } else if |params| > 1 {
      var text := Join(params);
      assert text[..|params[0]|] == params[0] && text[|params[0]|] == '&';
      FindIs(text, '&', 0, |params[0]|);
      assert text[|params[0]| + 1..] == Join(params[1..]);
      ParamsOfJoin(params[1..]);
      assert params == [params[0]] + params[1..];
    }
  }

  // Two queries have the same normal form exactly when they have the same non-empty parameters, each
  // as often, in any order.
  lemma NormalFormIsCanonical(q1: string, q2: string)
    ensures Normalized(q1) == Normalized(q2) <==> multiset(Params(q1)) == multiset(Params(q2))
  {
    ParamsProper(q1);
    ParamsProper(q2);
    SortProper(Params(q1));
    SortProper(Params(q2));
    ParamsOfJoin(Sort(Params(q1)));
    ParamsOfJoin(Sort(Params(q2)));
    SortCanonical(Params(q1), Params(q2));
  }

  lemma NormalizeIdempotent(q: string)
    ensures Normalized(Normalized(q)) == Normalized(q)
  {
    ParamsProper(q);
    SortProper(Params(q));
    ParamsOfJoin(Sort(Params(q)));
    NormalFormIsCanonical(Normalized(q), q);
  }

  // Where the pieces of a key are.
  predicate LaidOut(key: string, m: string, host: string, path: string, tail: string) {
    var start := |m| + 1 + |host| + 1;
    && start + |path| <= |key|
    && key[..|m|] == m && key[|m|] == '|'
    && key[|m| + 1..start - 1] == host && key[start - 1] == '|'
    && key[start..start + |path|] == path && key[start + |path|..] == tail
  }

  lemma KeySlices(m: string, host: string, path: string, tail: string)
    ensures LaidOut(Assemble(m, host, path, tail), m, host, path, tail)
  {
    var key := Assemble(m, host, path, tail);
    var pre := m + "|" + host + "|";
    var start := |pre|;
    Middle(pre, path, tail);
    Middle(m + "|", host, "|");
    assert key[..start] == pre;
    assert key[..|m|] == pre[..|m|];
    assert key[|m| + 1..start - 1] == pre[|m| + 1..start - 1];
  }

  // Where they are found, when the method and the host contain no bar and the path no question mark.
  lemma KeyParts(key: string, m: string, host: string, path: string, tail: string)
    requires LaidOut(key, m, host, path, tail)
    requires '|' !in m && '|' !in host && '?' !in path
    requires tail == "" || tail[0] == '?'
    ensures var start := |m| + 1 + |host| + 1;
            && start <= |key|
            && Find(key, '|', 0) == Some(|m|)
            && Find(key, '|', |m| + 1) == Some(start - 1)
            && Find(key, '?', start) == (if tail == "" then None else Some(start + |path|))
  {
    var start := |m| + 1 + |host| + 1;
    assert key[0..|m|] == m;
    FindAfter(key, '|', 0, m);
    FindAfter(key, '|', |m| + 1, host);
    QuestionMarkAt(key, start, path, tail);
  }

  lemma QuestionMarkAt(key: string, start: nat, path: string, tail: string)
    requires start + |path| <= |key|
    requires key[start..start + |path|] == path && key[start + |path|..] == tail
    requires '?' !in path && (tail == "" || tail[0] == '?')
    ensures Find(key, '?', start) == (if tail == "" then None else Some(start + |path|))
  {
    if tail == "" {
      forall j | start <= j < |key| ensures key[j] != '?' {
        assert key[j] == key[start..start + |path|][j - start] == path[j - start];
      }
      FindNone(key, '?', start);
    } else {
      assert key[start + |path|] == key[start + |path|..][0];
      FindAfter(key, '?', start, path);
    }
  }

  lemma SameParts(key: string, m1: string, h1: string, p1: string, t1: string, m2: string, h2: string, p2: string,
                  t2: string)
    requires '|' !in m1 && '|' !in h1 && '?' !in p1 && (t1 == "" || t1[0] == '?')
    requires '|' !in m2 && '|' !in h2 && '?' !in p2 && (t2 == "" || t2[0] == '?')
    requires LaidOut(key, m1, h1, p1, t1) && LaidOut(key, m2, h2, p2, t2)
    ensures m1 == m2 && h1 == h2 && p1 == p2 && t1 == t2
  {
    KeyParts(key, m1, h1, p1, t1);
    KeyParts(key, m2, h2, p2, t2);
    assert |m1| == |m2| && |h1| == |h2| && |p1| == |p2|;
  }

  // Two requests get the same key exactly when method, host, path and query parameters agree.
  lemma KeyIsCanonical(m1: string, h1: string, p1: string, q1: string, m2: string, h2: string, p2: string, q2: string)
    requires '|' !in m1 && '|' !in h1 && '?' !in p1
    requires '|' !in m2 && '|' !in h2 && '?' !in p2
    ensures KeyText(m1, h1, p1, q1) == KeyText(m2, h2, p2, q2)
            <==> m1 == m2 && h1 == h2 && p1 == p2 && multiset(Params(q1)) == multiset(Params(q2))
  {
    NormalFormIsCanonical(q1, q2);
    if KeyText(m1, h1, p1, q1) == KeyText(m2, h2, p2, q2) {
      KeySlices(m1, h1, p1, QueryTail(q1));
      KeySlices(m2, h2, p2, QueryTail(q2));
      SameParts(KeyText(m1, h1, p1, q1), m1, h1, p1, QueryTail(q1), m2, h2, p2, QueryTail(q2));
      QueryTailDetermines(q1, q2);
    }
  }

  lemma QueryTailDetermines(q1: string, q2: string)
    requires QueryTail(q1) == QueryTail(q2)
    ensures Normalized(q1) == Normalized(q2)
  {
    if Normalized(q1) != "" {
      assert QueryTail(q1)[1..] == Normalized(q1) && QueryTail(q2)[1..] == Normalized(q2);
    }
  }

  // Where the method ends and where the path ends does not depend on what the host looks like.
  lemma SameHostParts(key: string, m1: string, p1: string, t1: string, m2: string, p2: string, t2: string, host: string)
    requires '|' !in m1 && '?' !in p1 && (t1 == "" || t1[0] == '?')
    requires '|' !in m2 && '?' !in p2 && (t2 == "" || t2[0] == '?')
    requires LaidOut(key, m1, host, p1, t1) && LaidOut(key, m2, host, p2, t2)
    ensures m1 == m2 && p1 == p2 && t1 == t2
  {
    assert key[0..|m1|] == m1 && key[0..|m2|] == m2;
    FindAfter(key, '|', 0, m1);
    FindAfter(key, '|', 0, m2);
    var start := |m1| + 1 + |host| + 1;
    QuestionMarkAt(key, start, p1, t1);
    QuestionMarkAt(key, start, p2, t2);
    assert |p1| == |p2|;
  }

  // For one and the same host, whatever it is: equal keys exactly when method, path and parameters agree.
  lemma SameHostKeys(m1: string, p1: string, q1: string, m2: string, p2: string, q2: string, host: string)
    requires '|' !in m1 && '?' !in p1 && '|' !in m2 && '?' !in p2
    ensures KeyText(m1, host, p1, q1) == KeyText(m2, host, p2, q2)
            <==> m1 == m2 && p1 == p2 && multiset(Params(q1)) == multiset(Params(q2))
  {
    NormalFormIsCanonical(q1, q2);
    if KeyText(m1, host, p1, q1) == KeyText(m2, host, p2, q2) {
      KeySlices(m1, host, p1, QueryTail(q1));
      KeySlices(m2, host, p2, QueryTail(q2));
      SameHostParts(KeyText(m1, host, p1, q1), m1, p1, QueryTail(q1), m2, p2, QueryTail(q2), host);
      QueryTailDetermines(q1, q2);
    }
  }
}
