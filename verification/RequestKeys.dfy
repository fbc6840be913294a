// The cache keys of the requests the proxy receives: what the parser makes of a request rules out every way in which
// two different requests could share a key.
module RequestKeys {
  import opened CacheKeys
  import opened HttpParser
  import opened Strings

  // CacheKey::fromRequest, with the host of the origin the proxy is configured for
  function KeyOf(req: Request, host: string): string {
    KeyText(req.verb, host, req.path, req.query)
  }

  // The bytes begin with a request that can be answered from the cache: its method is GET or HEAD.
  predicate Reaches(buf: string) {
    HeadOf(buf).Good? && (HeadOf(buf).request.verb == "GET" || HeadOf(buf).request.verb == "HEAD")
  }

  lemma SplitsOnce(target: string, path: string, query: string)
    requires Splits(target, path, query)
    ensures path == Path(target) && query == Query(target)
  {
    if '?' in target {
      assert forall j :: 0 <= j < |path| ==> target[j] == path[j];
      FindIs(target, '?', 0, |path|);
    } else {
      FindNone(target, '?', 0);
    }
  }

  lemma ParsedTarget(buf: string)
    requires HeadOf(buf).Good?
    ensures HeadOf(buf).request.path == Path(HeadOf(buf).request.target)
    ensures HeadOf(buf).request.query == Query(HeadOf(buf).request.target)
  {
  }

  lemma SplitKeys(a: Request, path1: string, query1: string, b: Request, path2: string, query2: string, host: string)
    requires a.verb == "GET" || a.verb == "HEAD"
    requires b.verb == "GET" || b.verb == "HEAD"
    requires a.path == Path(a.target) && a.query == Query(a.target) && Splits(a.target, path1, query1)
    requires b.path == Path(b.target) && b.query == Query(b.target) && Splits(b.target, path2, query2)
    ensures KeyOf(a, host) == KeyOf(b, host)
            <==> a.verb == b.verb && path1 == path2 && multiset(Params(query1)) == multiset(Params(query2))
  {
    SplitsOnce(a.target, path1, query1);
    SplitsOnce(b.target, path2, query2);
    SplitsAtMark(a.target);
    SplitsAtMark(b.target);
    SameHostKeys(a.verb, path1, query1, b.verb, path2, query2, host);
  }

  // Two requests that can be answered from the cache get the same key exactly when they agree in method, in the path
  // of their targets and in the query parameters of their targets, the parameters in any order.
  lemma KeysAreExact(buf1: string, path1: string, query1: string, buf2: string, path2: string, query2: string,
                     host: string)
    requires Reaches(buf1) && Splits(HeadOf(buf1).request.target, path1, query1)
    requires Reaches(buf2) && Splits(HeadOf(buf2).request.target, path2, query2)
    ensures var a, b := HeadOf(buf1).request, HeadOf(buf2).request;
            KeyOf(a, host) == KeyOf(b, host)
            <==> a.verb == b.verb && path1 == path2 && multiset(Params(query1)) == multiset(Params(query2))
  {
    ParsedTarget(buf1);
    ParsedTarget(buf2);
    SplitKeys(HeadOf(buf1).request, path1, query1, HeadOf(buf2).request, path2, query2, host);
  }
}
