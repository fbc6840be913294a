// A connection feeds the parser with whatever arrives and takes out every complete request.
module HttpStreams {
  // When does what it takes out depend on the bytes alone, and not on the pieces they arrive in? The loop is stated
  // over any way to recognise a head and any keep-alive test; the proxy's own are at the end.

  import opened CacheEntries
  import opened HttpParser

  type Heads = string -> Head
  type Keeps = Request -> bool

  // Waiting: for more bytes. Closed: after a request without keep-alive. Failed: after a bad request.
  // Looping: a message that takes no bytes out of the buffer is found again and again.
  datatype Verdict = Waiting | Closed | Failed | Looping

  datatype Outcome = Outcome(requests: seq<Request>, left: string, verdict: Verdict)

  function Prepend(reqs: seq<Request>, o: Outcome): Outcome {
    o.(requests := reqs + o.requests)
  }

  // The loop in EventLoop::onReadable, on the bytes in the buffer.
  function Drain(head: Heads, keep: Keeps, buf: string): (o: Outcome)
    decreases |buf|
  {
    match ParsedAs(head(buf), buf)
    case NeedMore => Outcome([], buf, Waiting)
    case Error => Outcome([], buf, Failed)
    case Complete(req, total) =>
      if !keep(req) then Outcome([req], buf[total..], Closed)
      else if total == 0 then Outcome([req], buf, Looping)
      else Prepend([req], Drain(head, keep, buf[total..]))
  }

  // The connection over its life: pieces arrive until it is closed.
  function Arrive(head: Heads, keep: Keeps, buf: string, pieces: seq<string>): (o: Outcome)
    decreases |pieces|
  {
    if pieces == [] then Outcome([], buf, Waiting)
    else
      var o := Drain(head, keep, buf + pieces[0]);
      if o.verdict != Waiting then o else Prepend(o.requests, Arrive(head, keep, o.left, pieces[1..]))
  }

  function Concat(pieces: seq<string>): string {
    if pieces == [] then "" else pieces[0] + Concat(pieces[1..])
  }

  // The largest head that can arrive byte by byte without the buffer ever holding more than 64 KiB of it;
  // its own text is 65533 bytes.
  const ROOM: nat := 65537

  // Every good head in the stream, up to the point where the connection ends, has room; and a head whose message
  // length wraps around is the last thing in it.
  predicate Steady(head: Heads, keep: Keeps, u: string)
    decreases |u|
  {
    match head(u)
    case Incomplete => true
    case Bad(_) => true
    case Good(size, req, len) =>
      && size <= ROOM
      && if size + len >= U64 then |u| <= size
         else 0 < size + len <= |u| && keep(req) ==> Steady(head, keep, u[size + len..])
  }

  predicate SameKeep(keep: Keeps, r: Request, body: string) {
    keep(r.(body := body)) == keep(r)
  }

  ghost predicate IgnoresBody(keep: Keeps) {
    forall r: Request, body: string {:trigger SameKeep(keep, r, body)} :: SameKeep(keep, r, body)
  }

  predicate SizedAt(head: Heads, u: string) {
    head(u).Good? ==> 0 < head(u).size <= |u| && head(u).length < U64
  }

  ghost predicate WellSized(head: Heads) {
    forall u: string {:trigger SizedAt(head, u)} :: SizedAt(head, u)
  }

  // What the connection's recogniser and test have in common with any that make sense.
  ghost predicate Sane(head: Heads, keep: Keeps) {
    Stable(head) && WellSized(head) && IgnoresBody(keep) && head("") == Incomplete
  }

  // ---------------------------------------------------------------------------------------------
  // What is taken out of the bytes that are there is what would have been taken out with more bytes behind them.

  lemma BodyStays(u: string, n: nat, size: nat, len: nat)
    requires size + len <= n <= |u|
    ensures BodyAt(u[..n], size, len) == BodyAt(u, size, len)
  {
    assert u[..n][size..size + len] == u[size..size + len];
  }

  // A message that is complete before the end of the stream is a message of the stream.
  lemma CompleteStays(head: Heads, keep: Keeps, u: string, n: nat)
    requires Sane(head, keep) && n < |u| && Steady(head, keep, u)
    requires ParsedAs(head(u[..n]), u[..n]).Complete?
    ensures head(u).Good? && 0 < head(u).size + head(u).length < U64
    ensures ParsedAs(head(u), u) == ParsedAs(head(u[..n]), u[..n])
    ensures ParsedAs(head(u), u).total == head(u).size + head(u).length
  {
    assert StableAt(head, u, n) && SizedAt(head, u);
    BodyStays(u, n, head(u).size, head(u).length);
  }

  lemma ErrorStays(head: Heads, keep: Keeps, u: string, n: nat)
    requires Sane(head, keep) && n <= |u| && Steady(head, keep, u)
    requires ParsedAs(head(u[..n]), u[..n]).Error?
    ensures ParsedAs(head(u), u).Error?
  {
    assert StableAt(head, u, n);
  }

  lemma Taken(head: Heads, keep: Keeps, u: string, n: nat)
    requires Sane(head, keep) && n < |u| && Steady(head, keep, u)
    requires ParsedAs(head(u[..n]), u[..n]).Complete?
    ensures var p := ParsedAs(head(u), u);
            && p == ParsedAs(head(u[..n]), u[..n]) && 0 < p.total <= n
            && (keep(p.request) ==> Steady(head, keep, u[p.total..]))
  {
    CompleteStays(head, keep, u, n);
    assert SameKeep(keep, head(u).request, BodyAt(u, head(u).size, head(u).length));
  }

  // The first n bytes of u have been looked at, and m of them taken out.
  ghost predicate Paused(head: Heads, keep: Keeps, u: string, n: nat, m: nat)
    requires m <= n <= |u|
  {
    var o := Drain(head, keep, u[..n]);
    && o.verdict == Waiting && o.left == u[m..n]
    && Drain(head, keep, o.left) == Outcome([], o.left, Waiting)
    && Drain(head, keep, u) == Prepend(o.requests, Drain(head, keep, u[m..]))
    && Steady(head, keep, u[m..])
  }

  ghost predicate Ended(head: Heads, keep: Keeps, u: string, n: nat)
    requires n <= |u|
  {
    var o := Drain(head, keep, u[..n]);
    && o.verdict != Waiting
    && Drain(head, keep, u).requests == o.requests && Drain(head, keep, u).verdict == o.verdict
  }

  lemma PrependNothing(o: Outcome)
    ensures Prepend([], o) == o
  {
    assert [] + o.requests == o.requests;
  }

  lemma PausedHere(head: Heads, keep: Keeps, u: string, n: nat)
    requires n <= |u| && Steady(head, keep, u)
    requires ParsedAs(head(u[..n]), u[..n]).NeedMore?
    ensures Paused(head, keep, u, n, 0)
  {
    assert u[0..] == u && u[0..n] == u[..n];
    PrependNothing(Drain(head, keep, u));
  }

  lemma Slices(u: string, total: nat, m: nat, n: nat)
    requires total + m <= n <= |u|
    ensures u[..n][total..] == u[total..][..n - total]
    ensures u[total..][m..n - total] == u[total + m..n]
    ensures u[total..][m..] == u[total + m..]
  {
  }

  lemma PrependTwice(a: seq<Request>, b: seq<Request>, o: Outcome)
    ensures Prepend(a, Prepend(b, o)) == Prepend(a + b, o)
  {
    assert a + (b + o.requests) == (a + b) + o.requests;
  }

  lemma PausedLater(head: Heads, keep: Keeps, u: string, n: nat, req: Request, total: nat, rest: nat,
                    m: nat)
    requires 0 < total && m == total + rest <= n <= |u| && keep(req)
    requires ParsedAs(head(u[..n]), u[..n]) == Complete(req, total) == ParsedAs(head(u), u)
    requires Paused(head, keep, u[total..], n - total, rest)
    ensures Paused(head, keep, u, n, m)
  {
    Slices(u, total, rest, n);
    var o := Drain(head, keep, u[total..][..n - total]);
    PrependTwice([req], o.requests, Drain(head, keep, u[m..]));
  }

  lemma EndedLater(head: Heads, keep: Keeps, u: string, n: nat, req: Request, total: nat)
    requires 0 < total <= n <= |u| && keep(req)
    requires ParsedAs(head(u[..n]), u[..n]) == Complete(req, total) == ParsedAs(head(u), u)
    requires Ended(head, keep, u[total..], n - total)
    ensures Ended(head, keep, u, n)
  {
    Slices(u, total, 0, n);
  }

  lemma EndedHere(head: Heads, keep: Keeps, u: string, n: nat)
    requires n <= |u| && ParsedAs(head(u), u) == ParsedAs(head(u[..n]), u[..n])
    requires var p := ParsedAs(head(u), u); p.Error? || (p.Complete? && !keep(p.request))
    ensures Ended(head, keep, u, n)
  {
  }

  // Nothing complete is in the first n bytes that goes on.
  lemma SettledNow(head: Heads, keep: Keeps, u: string, n: nat) returns (paused: bool)
    requires Sane(head, keep) && n < |u| && Steady(head, keep, u)
    requires var p := ParsedAs(head(u[..n]), u[..n]); !(p.Complete? && keep(p.request))
    ensures if paused then Paused(head, keep, u, n, 0) else Ended(head, keep, u, n)
  {
    paused := false;
    match ParsedAs(head(u[..n]), u[..n]) {
      case NeedMore =>
        PausedHere(head, keep, u, n);
        paused := true;
      case Error =>
        ErrorStays(head, keep, u, n);
        EndedHere(head, keep, u, n);
      case Complete(_, _) =>
        Taken(head, keep, u, n);
        EndedHere(head, keep, u, n);
    }
  }

  // Looking at a part of the stream takes out exactly the requests that are complete in it: either m bytes are taken
  // out and the rest goes on as if the stream had not been cut, or the connection ends as it does uncut.
  lemma {:induction false} DrainPart(head: Heads, keep: Keeps, u: string, n: nat) returns (paused: bool, m: nat)
    requires Sane(head, keep) && n < |u| && Steady(head, keep, u)
    ensures m <= n && if paused then Paused(head, keep, u, n, m) else Ended(head, keep, u, n)
    decreases |u|
  {
    var p := ParsedAs(head(u[..n]), u[..n]);
    if p.Complete? && keep(p.request) {
      Taken(head, keep, u, n);
      var rest;
      paused, rest := DrainPart(head, keep, u[p.total..], n - p.total);
      m := p.total + rest;
      if paused {
        PausedLater(head, keep, u, n, p.request, p.total, rest, m);
      } else {
        EndedLater(head, keep, u, n, p.request, p.total);
      }
    } else {
      paused := SettledNow(head, keep, u, n);
      m := 0;
    }
  }

  // ---------------------------------------------------------------------------------------------
  // A steady stream may arrive in any pieces.

  // The same requests and the same end; when the connection goes on, also the same bytes left over.
  predicate Same(a: Outcome, b: Outcome) {
    a.requests == b.requests && a.verdict == b.verdict && (a.verdict == Waiting ==> a.left == b.left)
  }

  // What is left over has nothing complete in it.
  lemma {:induction false} LeftIsSettled(head: Heads, keep: Keeps, u: string)
    requires Drain(head, keep, u).verdict == Waiting
    ensures var left := Drain(head, keep, u).left; Drain(head, keep, left) == Outcome([], left, Waiting)
    decreases |u|
  {
    var p := ParsedAs(head(u), u);
    if p.Complete? && p.total > 0 && keep(p.request) {
      LeftIsSettled(head, keep, u[p.total..]);
    }
  }

  lemma {:induction false} NothingMore(head: Heads, keep: Keeps, left: string, pieces: seq<string>)
    requires Concat(pieces) == "" && Drain(head, keep, left) == Outcome([], left, Waiting)
    ensures Arrive(head, keep, left, pieces) == Outcome([], left, Waiting)
    decreases |pieces|
  {
    if pieces != [] {
      assert |Concat(pieces)| == |pieces[0]| + |Concat(pieces[1..])|;
      assert left + pieces[0] == left;
      NothingMore(head, keep, left, pieces[1..]);
    }
  }

  lemma Pieces(buf: string, pieces: seq<string>)
    requires pieces != []
    ensures var u := buf + Concat(pieces);
            var n := |buf| + |pieces[0]|;
            n <= |u| && u[..n] == buf + pieces[0] && u[n..] == Concat(pieces[1..])
  {
    assert buf + Concat(pieces) == (buf + pieces[0]) + Concat(pieces[1..]);
  }

  lemma Regroup(u: string, m: nat, n: nat)
    requires m <= n <= |u|
    ensures u[m..] == u[m..n] + u[n..]
  {
  }

  lemma ArrivePaused(head: Heads, keep: Keeps, buf: string, pieces: seq<string>, u: string, n: nat, m: nat)
    requires pieces != [] && m <= n <= |u| && u[..n] == buf + pieces[0] && Paused(head, keep, u, n, m)
    requires Same(Arrive(head, keep, u[m..n], pieces[1..]), Drain(head, keep, u[m..]))
    ensures Same(Arrive(head, keep, buf, pieces), Drain(head, keep, u))
  {
  }

  lemma ArriveEnded(head: Heads, keep: Keeps, buf: string, pieces: seq<string>, u: string, n: nat)
    requires pieces != [] && n <= |u| && u[..n] == buf + pieces[0] && Ended(head, keep, u, n)
    ensures Same(Arrive(head, keep, buf, pieces), Drain(head, keep, u))
  {
  }

  // The last bytes of the stream have arrived.
  lemma ArriveLast(head: Heads, keep: Keeps, buf: string, pieces: seq<string>, u: string)
    requires pieces != [] && u == buf + pieces[0] && Concat(pieces[1..]) == ""
    ensures Same(Arrive(head, keep, buf, pieces), Drain(head, keep, u))
  {
    var o := Drain(head, keep, u);
    if o.verdict == Waiting {
      LeftIsSettled(head, keep, u);
      NothingMore(head, keep, o.left, pieces[1..]);
      assert o.requests + [] == o.requests;
    }
  }

  // Arriving in pieces comes to the same as arriving at once.
  lemma {:induction false} ArriveWhole(head: Heads, keep: Keeps, buf: string, pieces: seq<string>, u: string)
    requires Sane(head, keep) && u == buf + Concat(pieces)
    requires Drain(head, keep, buf) == Outcome([], buf, Waiting) && Steady(head, keep, u)
    ensures Same(Arrive(head, keep, buf, pieces), Drain(head, keep, u))
    decreases |pieces|, 2
  {
    if pieces == [] {
      assert u == buf;
    } else {
      var n := |buf| + |pieces[0]|;
      Pieces(buf, pieces);
      if n == |u| {
        assert u[..n] == u && u[n..] == "";
        ArriveLast(head, keep, buf, pieces, u);
      } else {
        ArriveMore(head, keep, buf, pieces, u);
      }
    }
  }

  lemma {:induction false} ArriveMore(head: Heads, keep: Keeps, buf: string, pieces: seq<string>, u: string)
    requires Sane(head, keep) && u == buf + Concat(pieces) && pieces != []
    requires |buf| + |pieces[0]| < |u| && Steady(head, keep, u)
    ensures Same(Arrive(head, keep, buf, pieces), Drain(head, keep, u))
    decreases |pieces|, 1
  {
    var n := |buf| + |pieces[0]|;
    Pieces(buf, pieces);
    var paused, m := DrainPart(head, keep, u, n);
    if paused {
      ArriveOn(head, keep, buf, pieces, u, n, m);
    } else {
      ArriveEnded(head, keep, buf, pieces, u, n);
    }
  }

  lemma {:induction false} ArriveOn(head: Heads, keep: Keeps, buf: string, pieces: seq<string>, u: string, n: nat,
                                    m: nat)
    requires Sane(head, keep) && pieces != [] && m <= n <= |u| && Paused(head, keep, u, n, m)
    requires u[..n] == buf + pieces[0] && u[n..] == Concat(pieces[1..])
    ensures Same(Arrive(head, keep, buf, pieces), Drain(head, keep, u))
    decreases |pieces|, 0
  {
    Regroup(u, m, n);
    ArriveWhole(head, keep, u[m..n], pieces[1..], u[m..]);
    ArrivePaused(head, keep, buf, pieces, u, n, m);
  }

  // ---------------------------------------------------------------------------------------------
  // A stream that is not steady can be cut so that the outcome differs.

  // After the first n bytes: the connection has failed although the uncut stream does not, or one of the requests
  // is not the one the uncut stream has in its place.
  ghost predicate Differs(head: Heads, keep: Keeps, u: string, n: nat)
    requires n <= |u|
  {
    Contradicts(Drain(head, keep, u[..n]), Drain(head, keep, u))
  }

  ghost predicate Contradicts(o: Outcome, whole: Outcome) {
    || (o.verdict == Failed && !Same(o, whole))
    || exists q: nat :: q < |o.requests| && q < |whole.requests| && o.requests[q] != whole.requests[q]
  }

  // A head without room fails if it arrives without its last byte.
  lemma TooLong(head: Heads, keep: Keeps, u: string)
    requires Sane(head, keep) && head(u).Good? && ROOM < head(u).size <= |u|
    ensures Differs(head, keep, u, head(u).size - 1)
  {
    assert StableAt(head, u, head(u).size - 1);
    assert Drain(head, keep, u[..head(u).size - 1]) == Outcome([], u[..head(u).size - 1], Failed);
  }

  lemma WrappedBody(u: string, size: nat, req: Request, len: nat)
    requires size <= ROOM && size + len >= U64 && len < U64 && size <= |u|
    ensures Framed(u, size, req, len).Complete?
    ensures |u| == size ==> Framed(u, size, req, len).request.body == ""
    ensures |u| > size ==> Framed(u, size, req, len).request.body != ""
  {
    assert ToU64(size + len) == size + len - U64;
  }

  // A message whose length wraps around gets as its body whatever has arrived with its head.
  lemma WrapDiffers(head: Heads, keep: Keeps, u: string)
    requires Sane(head, keep) && head(u).Good? && head(u).size <= ROOM && head(u).size < |u|
    requires head(u).size + head(u).length >= U64
    ensures Differs(head, keep, u, head(u).size)
  {
    var size, req, len := head(u).size, head(u).request, head(u).length;
    assert StableAt(head, u, size) && SizedAt(head, u);
    WrappedBody(u, size, req, len);
    WrappedBody(u[..size], size, req, len);
    FirstRequest(head, keep, u, Framed(u, size, req, len).request);
    FirstRequest(head, keep, u[..size], Framed(u[..size], size, req, len).request);
  }

  lemma FirstRequest(head: Heads, keep: Keeps, u: string, req: Request)
    requires ParsedAs(head(u), u).Complete? && ParsedAs(head(u), u).request == req
    ensures Drain(head, keep, u).requests != [] && Drain(head, keep, u).requests[0] == req
  {
  }

  lemma FirstOff(head: Heads, keep: Keeps, u: string, req: Request, total: nat)
    requires ParsedAs(head(u), u) == Complete(req, total) && 0 < total <= |u| && keep(req)
    ensures Drain(head, keep, u) == Prepend([req], Drain(head, keep, u[total..]))
  {
  }

  // The first message of a stream is taken out of every part that contains it.
  lemma GoodComplete(head: Heads, keep: Keeps, u: string, n: nat) returns (req: Request)
    requires Sane(head, keep) && head(u).Good? && head(u).size + head(u).length <= n <= |u|
    requires head(u).size + head(u).length < U64
    ensures var total := head(u).size + head(u).length;
            ParsedAs(head(u[..n]), u[..n]) == Complete(req, total) == ParsedAs(head(u), u) && total > 0
    ensures keep(req) == keep(head(u).request)
  {
    req := head(u).request.(body := BodyAt(u, head(u).size, head(u).length));
    assert SameKeep(keep, head(u).request, req.body) && SizedAt(head, u);
    assert StableAt(head, u, n);
    BodyStays(u, n, head(u).size, head(u).length);
  }

  lemma PrependedDiffer(req: Request, o: Outcome, whole: Outcome)
    ensures Same(Prepend([req], o), Prepend([req], whole)) ==> Same(o, whole)
    ensures forall q: nat :: q < |o.requests| ==> Prepend([req], o).requests[q + 1] == o.requests[q]
  {
    assert ([req] + o.requests)[1..] == o.requests && ([req] + whole.requests)[1..] == whole.requests;
  }

  lemma LaterDiffers(head: Heads, keep: Keeps, u: string, total: nat, n: nat)
    requires Sane(head, keep) && head(u).Good? && total == head(u).size + head(u).length < U64
    requires total + n <= |u| && keep(head(u).request) && Differs(head, keep, u[total..], n)
    ensures Differs(head, keep, u, total + n)
  {
    Slices(u, total, 0, total + n);
    var req := GoodComplete(head, keep, u, total + n);
    FirstOff(head, keep, u, req, total);
    FirstOff(head, keep, u[..total + n], req, total);
    LaterOutcomes(req, Drain(head, keep, u[total..][..n]), Drain(head, keep, u[total..]));
  }

  lemma LaterOutcomes(req: Request, o: Outcome, whole: Outcome)
    requires Contradicts(o, whole)
    ensures Contradicts(Prepend([req], o), Prepend([req], whole))
  {
    var o', whole' := Prepend([req], o), Prepend([req], whole);
    PrependedDiffer(req, o, whole);
    PrependedDiffer(req, whole, o);
    if q: nat :| q < |o.requests| && q < |whole.requests| && o.requests[q] != whole.requests[q] {
      assert o'.requests[q + 1] != whole'.requests[q + 1];
    }
  }

  // Where the first message is not what makes the stream unsteady, something further on is.
  lemma Unsteady(head: Heads, keep: Keeps, u: string)
    requires Sane(head, keep) && !Steady(head, keep, u)
    ensures head(u).Good? && head(u).size <= |u|
    ensures head(u).size <= ROOM && head(u).size + head(u).length < U64 ==>
              var total := head(u).size + head(u).length;
              0 < total <= |u| && keep(head(u).request) && !Steady(head, keep, u[total..])
    ensures head(u).size + head(u).length >= U64 ==> head(u).size > ROOM || head(u).size < |u|
  {
    assert SizedAt(head, u);
  }

  lemma {:induction false} BadCut(head: Heads, keep: Keeps, u: string) returns (n: nat)
    requires Sane(head, keep) && !Steady(head, keep, u)
    ensures n <= |u| && Differs(head, keep, u, n)
    decreases |u|
  {
    Unsteady(head, keep, u);
    if head(u).size > ROOM {
      TooLong(head, keep, u);
      n := head(u).size - 1;
    } else if head(u).size + head(u).length >= U64 {
      WrapDiffers(head, keep, u);
      n := head(u).size;
    } else {
      var total := head(u).size + head(u).length;
      n := BadCut(head, keep, u[total..]);
      LaterDiffers(head, keep, u, total, n);
      n := total + n;
    }
  }

  // What has been handed over after the first piece stays handed over.
  lemma TwoPieces(head: Heads, keep: Keeps, u: string, n: nat)
    requires n <= |u| && Differs(head, keep, u, n)
    ensures Concat([u[..n], u[n..]]) == u
    ensures !Same(Arrive(head, keep, "", [u[..n], u[n..]]), Drain(head, keep, u))
  {
    var pieces := [u[..n], u[n..]];
    assert pieces[1..] == [u[n..]] && [u[n..]][1..] == [];
    assert Concat([u[n..]]) == u[n..] + "" == u[n..];
    assert "" + u[..n] == u[..n];
    var o := Drain(head, keep, u[..n]);
    if o.verdict == Waiting {
      PrefixStays(o.requests, Arrive(head, keep, o.left, pieces[1..]));
    }
  }

  lemma PrefixStays(requests: seq<Request>, later: Outcome)
    ensures forall q: nat :: q < |requests| ==> Prepend(requests, later).requests[q] == requests[q]
  {
  }

  ghost predicate Independent(head: Heads, keep: Keeps, stream: string) {
    forall pieces :: Concat(pieces) == stream ==> Same(Arrive(head, keep, "", pieces), Drain(head, keep, stream))
  }

  lemma SteadyIsIndependent(head: Heads, keep: Keeps, stream: string)
    requires Sane(head, keep)
    ensures Steady(head, keep, stream) <==> Independent(head, keep, stream)
  {
    if Steady(head, keep, stream) {
      forall pieces | Concat(pieces) == stream
        ensures Same(Arrive(head, keep, "", pieces), Drain(head, keep, stream))
      {
        assert "" + Concat(pieces) == stream;
        ArriveWhole(head, keep, "", pieces, stream);
      }
    } else {
      var n := BadCut(head, keep, stream);
      TwoPieces(head, keep, stream, n);
    }
  }

  // ---------------------------------------------------------------------------------------------
  // The proxy's connection.

  lemma KeepAliveIgnoresBody()
    ensures IgnoresBody(KeepAlive)
  {
    forall r: Request, body: string ensures SameKeep(KeepAlive, r, body) {
    }
  }

  lemma HeadOfSized()
    ensures WellSized(HeadOf) && HeadOf("") == Incomplete
  {
    forall u: string ensures SizedAt(HeadOf, u) {
      OneHeadSized(u);
    }
  }

  lemma OneHeadSized(u: string)
    ensures SizedAt(HeadOf, u)
  {
  }

  // Every way to cut a stream into pieces gives the requests, the leftover bytes and the verdict of the uncut stream
  // if and only if every good head in it has room and no message with bytes behind its head has a wrapping length.
  lemma ChunkingIndependence(stream: string)
    ensures Steady(HeadOf, KeepAlive, stream) <==> Independent(HeadOf, KeepAlive, stream)
  {
    HeadOfStable();
    HeadOfSized();
    KeepAliveIgnoresBody();
    SteadyIsIndependent(HeadOf, KeepAlive, stream);
  }

  // One turn of the loop.
  lemma OneTurn(head: Heads, keep: Keeps, buf: string)
    requires Drain(head, keep, buf).verdict != Looping
    ensures var p := ParsedAs(head(buf), buf);
            && (p.NeedMore? ==> Drain(head, keep, buf) == Outcome([], buf, Waiting))
            && (p.Error? ==> Drain(head, keep, buf) == Outcome([], buf, Failed))
            && (p.Complete? && !keep(p.request) ==>
                  Drain(head, keep, buf) == Outcome([p.request], buf[p.total..], Closed))
            && (p.Complete? && keep(p.request) ==>
                  p.total > 0 && Drain(head, keep, buf) == Prepend([p.request], Drain(head, keep, buf[p.total..])))
  {
  }

  // The same when some requests have been handed over already.
  lemma Turn(head: Heads, keep: Keeps, buf: string, start: Outcome, requests: seq<Request>)
    requires start == Prepend(requests, Drain(head, keep, buf)) && start.verdict != Looping
    ensures var p := ParsedAs(head(buf), buf);
            && (p.NeedMore? ==> start == Outcome(requests, buf, Waiting))
            && (p.Error? ==> start == Outcome(requests, buf, Failed))
            && (p.Complete? && !keep(p.request) ==>
                  start == Outcome(requests + [p.request], buf[p.total..], Closed))
            && (p.Complete? && keep(p.request) ==>
                  p.total > 0 && start == Prepend(requests + [p.request], Drain(head, keep, buf[p.total..])))
  {
    OneTurn(head, keep, buf);
    var p := ParsedAs(head(buf), buf);
    if p.Complete? && keep(p.request) {
      PrependTwice(requests, [p.request], Drain(head, keep, buf[p.total..]));
    }
    assert requests + [] == requests;
  }

  // The loop comes to an end on these bytes, in so many turns at most.
  predicate EndsWithin(head: Heads, keep: Keeps, buf: string, turns: nat)
    decreases turns
  {
    turns > 0
    && match ParsedAs(head(buf), buf)
       case NeedMore => true
       case Error => true
       case Complete(req, total) => !keep(req) || EndsWithin(head, keep, buf[total..], turns - 1)
  }

  lemma {:induction false} EndsSoon(head: Heads, keep: Keeps, buf: string)
    requires Drain(head, keep, buf).verdict != Looping
    ensures EndsWithin(head, keep, buf, |buf| + 1)
    decreases |buf|
  {
    var p := ParsedAs(head(buf), buf);
    if p.Complete? && keep(p.request) {
      EndsSoon(head, keep, buf[p.total..]);
      MoreTurns(head, keep, buf[p.total..], |buf| - p.total + 1, |buf|);
    }
  }

  lemma {:induction false} MoreTurns(head: Heads, keep: Keeps, buf: string, turns: nat, more: nat)
    requires EndsWithin(head, keep, buf, turns) && turns <= more
    ensures EndsWithin(head, keep, buf, more)
    decreases turns
  {
    var p := ParsedAs(head(buf), buf);
    if p.Complete? && keep(p.request) {
      MoreTurns(head, keep, buf[p.total..], turns - 1, more - 1);
    }
  }

  lemma {:induction false} EndingIsNoLoop(head: Heads, keep: Keeps, buf: string, turns: nat)
    requires EndsWithin(head, keep, buf, turns)
    ensures Drain(head, keep, buf).verdict != Looping
    decreases turns
  {
    var p := ParsedAs(head(buf), buf);
    if p.Complete? && keep(p.request) {
      EndingIsNoLoop(head, keep, buf[p.total..], turns - 1);
      assert p.total == 0 ==> buf[p.total..] == buf;
    }
  }

  ghost predicate Ends(head: Heads, keep: Keeps, buf: string) {
    exists turns: nat :: EndsWithin(head, keep, buf, turns)
  }

  // The loop ends at all exactly when no message of the stream, kept alive, takes no bytes.
  lemma LoopEnds(head: Heads, keep: Keeps, buf: string)
    ensures Ends(head, keep, buf) <==> Drain(head, keep, buf).verdict != Looping
  {
    if Drain(head, keep, buf).verdict != Looping {
      EndsSoon(head, keep, buf);
      assert Ends(head, keep, buf);
    } else if Ends(head, keep, buf) {
      var turns: nat :| EndsWithin(head, keep, buf, turns);
      EndingIsNoLoop(head, keep, buf, turns);
    }
  }

  class Connection {
    const parser: RequestParser

    constructor ()
      ensures fresh(parser) && parser.buffer == ""
    {
      parser := new RequestParser();
    }

    // One turn of the loop below: what is owed is what has been handed over and what the rest of the buffer gives.
    method Next(ghost owed: Outcome, ghost requests: seq<Request>) returns (st: Parsed)
      requires owed == Prepend(requests, Drain(HeadOf, KeepAlive, parser.buffer)) && owed.verdict != Looping
      modifies parser
      ensures st.NeedMore? ==> owed == Outcome(requests, parser.buffer, Waiting)
      ensures st.Error? ==> owed == Outcome(requests, parser.buffer, Failed)
      ensures st.Complete? && !KeepAlive(st.request) ==>
                owed == Outcome(requests + [st.request], parser.buffer, Closed)
      ensures st.Complete? && KeepAlive(st.request) ==>
                && |parser.buffer| < |old(parser.buffer)|
                && owed == Prepend(requests + [st.request], Drain(HeadOf, KeepAlive, parser.buffer))
    {
      Turn(HeadOf, KeepAlive, parser.buffer, owed, requests);
      st := parser.Parse();
    }

    // EventLoop::onReadable: feeds what has arrived and hands over every complete request. By LoopEnds, the required
    // is that the original's loop ends.
    method OnReadable(data: string) returns (requests: seq<Request>, verdict: Verdict)
      requires Drain(HeadOf, KeepAlive, parser.buffer + data).verdict != Looping
      modifies parser
      ensures Drain(HeadOf, KeepAlive, old(parser.buffer) + data) == Outcome(requests, parser.buffer, verdict)
    {
      ghost var owed := Drain(HeadOf, KeepAlive, parser.buffer + data);
      parser.Feed(data);
      requests := [];
      PrependNothing(owed);
      while true
        invariant owed == Prepend(requests, Drain(HeadOf, KeepAlive, parser.buffer))
        decreases |parser.buffer|
      {
        var st := Next(owed, requests);
        if st.NeedMore? { return requests, Waiting; }
        if st.Error? { return requests, Failed; }
        requests := requests + [st.request];
        if !KeepAlive(st.request) { return requests, Closed; }
      }
    }
  }
}
