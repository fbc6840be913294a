// RedisConnection: the receive buffer with its read position, and the parser on top of it.
module RedisConnections {
  // poll and recv are modelled by what they will still bring, one arrival per call of fillBuffer: a piece of the
  // stream, or nothing, when poll times out or a call is interrupted. At the end of the arrivals the peer has closed
  // the connection or a call has failed, after which the connection is closed.

  import opened Wrappers
  import opened Strings
  import opened Numbers
  import Resp

  datatype Arrival = Piece(bytes: string) | Nothing

  // The bytes that arrive before the next time nothing does,
  function Before(incoming: seq<Arrival>): string {
    if incoming == [] || incoming[0].Nothing? then "" else incoming[0].bytes + Before(incoming[1..])
  }

  // what arrives from then on,
  function From(incoming: seq<Arrival>): (later: seq<Arrival>)
    ensures |later| <= |incoming|
    ensures later != [] ==> later[0].Nothing?
  {
    if incoming == [] || incoming[0].Nothing? then incoming else From(incoming[1..])
  }

  // and the bytes of all arrivals.
  function Bytes(incoming: seq<Arrival>): string {
    if incoming == [] then ""
    else (if incoming[0].Piece? then incoming[0].bytes else "") + Bytes(incoming[1..])
  }

  lemma {:induction false} BytesInOrder(incoming: seq<Arrival>)
    ensures Bytes(incoming) == Before(incoming) + Bytes(From(incoming))
  {
    if incoming != [] && incoming[0].Piece? {
      BytesInOrder(incoming[1..]);
    }
  }

  lemma Regroup(a: string, b: string, c: string)
    ensures (a + b) + c == a + (b + c)
  {
  }

  // Receiving the first arrival does not change what can be read.
  lemma {:induction false} Received(buf: string, incoming: seq<Arrival>)
    requires incoming != []
    ensures match incoming[0]
            case Nothing => Bytes(incoming[1..]) == Bytes(incoming)
            case Piece(s) =>
              && (buf + s) + Bytes(incoming[1..]) == buf + Bytes(incoming)
              && (buf + s) + Before(incoming[1..]) == buf + Before(incoming)
              && From(incoming[1..]) == From(incoming)
  {
    if incoming[0].Piece? {
      var s := incoming[0].bytes;
      Regroup(buf, s, Bytes(incoming[1..]));
      Regroup(buf, s, Before(incoming[1..]));
    }
  }

  lemma CrlfInBuffer(buf: string, p: nat, more: string, at: nat)
    requires p <= at && at + 2 <= |buf|
    ensures OccursAt(buf[p..] + more, Resp.CRLF, at - p) == OccursAt(buf, Resp.CRLF, at)
  {
    var u := buf[p..] + more;
    Resp.CrlfAt(buf, at);
    Resp.CrlfAt(u, at - p);
    assert u[at - p] == buf[at] && u[at - p + 1] == buf[at + 1];
  }

  lemma FirstInBuffer(u: string, buf: string, p: nat, more: string, nl: nat)
    requires p <= |buf| && u == buf[p..] + more && FindStr(buf, Resp.CRLF, p) == Some(nl)
    ensures FindStr(u, Resp.CRLF, 0) == Some(nl - p)
  {
    CrlfInBuffer(buf, p, more, nl);
    forall i: nat | i < nl - p ensures !OccursAt(u, Resp.CRLF, i) {
      CrlfInBuffer(buf, p, more, p + i);
    }
    FindStrIs(u, Resp.CRLF, 0, nl - p);
  }

  lemma SplitBuffer(u: string, buf: string, p: nat, n: nat, end: nat, more: string)
    requires p + n == end && end + 2 <= |buf| && u == buf[p..] + more
    ensures u[..n] == buf[p..end] && u[n + 2..] == buf[end + 2..] + more
  {
  }

  // A line that is complete in the buffer is the next line of the stream.
  lemma LineInBuffer(u: string, buf: string, p: nat, more: string, nl: nat)
    requires p <= |buf| && u == buf[p..] + more && FindStr(buf, Resp.CRLF, p) == Some(nl)
    ensures Resp.ReadLine(u) == Some((buf[p..nl], buf[nl + 2..] + more))
  {
    FirstInBuffer(u, buf, p, more, nl);
    SplitBuffer(u, buf, p, nl - p, nl, more);
  }

  lemma NoLineInBuffer(buf: string, p: nat)
    requires p <= |buf| && FindStr(buf, Resp.CRLF, p) == None
    ensures Resp.ReadLine(buf[p..] + "") == None
  {
    var u := buf[p..] + "";
    if FindStr(u, Resp.CRLF, 0).Some? {
      CrlfInBuffer(buf, p, "", p + FindStr(u, Resp.CRLF, 0).value);
    }
  }

  class RedisConnection {
    var rbuf: string
    var rpos: nat
    var open: bool
    var incoming: seq<Arrival>

    ghost predicate Valid()
      reads this
    {
      rpos <= |rbuf| && forall i :: 0 <= i < |incoming| ==> incoming[i] != Piece("")
    }

    // The bytes that can be consumed without waiting in vain,
    ghost function Reach(): string
      reads this
      requires Valid()
    {
      rbuf[rpos..] + Before(incoming)
    }

    // and all bytes that have not been consumed, received or not.
    ghost function Unread(): string
      reads this
      requires Valid()
    {
      rbuf[rpos..] + Bytes(incoming)
    }

    // The connection is open with so much in reach, and then these arrivals.
    ghost predicate At(reach: string, later: seq<Arrival>)
      reads this
      requires Valid()
    {
      open && Reach() == reach && From(incoming) == later
    }

    // A call has come back without success, and what is left if the connection is still open.
    ghost predicate GaveUp(left: string, later: seq<Arrival>)
      reads this
      requires Valid()
    {
      open ==> Unread() == left + Bytes(later)
    }

    lemma UnreadInOrder()
      requires Valid()
      ensures Unread() == Reach() + Bytes(From(incoming))
    {
      BytesInOrder(incoming);
    }

    constructor (incoming: seq<Arrival>)
      requires forall i :: 0 <= i < |incoming| ==> incoming[i] != Piece("")
      ensures Valid() && open && Unread() == Bytes(incoming) && Reach() == Before(incoming)
      ensures this.incoming == incoming
    {
      rbuf, rpos, open := "", 0, true;
      this.incoming := incoming;
      new;
      assert rbuf[rpos..] + Bytes(incoming) == Bytes(incoming);
      assert rbuf[rpos..] + Before(incoming) == Before(incoming);
    }

    method Close()
      modifies this`rbuf, this`rpos, this`open
      ensures rbuf == "" && rpos == 0 && !open
    {
      rbuf, rpos, open := "", 0, false;
    }

    // Receives one piece, if one arrives. Consumed bytes are dropped once there are more than 4096 of them.
    method FillBuffer() returns (ok: bool)
      requires Valid() && open
      modifies this
      ensures Valid() && open == (old(incoming) != []) && ok == (open && old(incoming)[0].Piece?)
      ensures open ==> incoming == old(incoming)[1..] && Unread() == old(Unread())
      ensures open && !ok ==> rbuf[rpos..] == old(rbuf[rpos..])
      ensures ok ==> rbuf[rpos..] == old(rbuf[rpos..]) + old(incoming)[0].bytes
      ensures ok ==> Reach() == old(Reach()) && From(incoming) == old(From(incoming))
    {
      if rpos > 4096 {
        rbuf := rbuf[rpos..];
        rpos := 0;
      }
      ghost var unread := rbuf[rpos..];
      assert unread == old(rbuf[rpos..]);
      if incoming == [] {
        Close();
        return false;
      }
      Received(unread, incoming);
      var arrival := incoming[0];
      incoming := incoming[1..];
      if arrival.Nothing? {
        return false;
      }
      rbuf := rbuf + arrival.bytes;
      assert rbuf[rpos..] == unread + arrival.bytes;
      return true;
    }

    // Without the end of a line, nothing is consumed.
    method ReadLine() returns (ok: bool, line: string)
      requires Valid() && open
      modifies this
      ensures Valid()
      ensures match Resp.ReadLine(old(Reach()))
              case None =>
                && !ok && open == (old(From(incoming)) != [])
                && (open ==> Unread() == old(Unread()) && incoming == old(From(incoming))[1..])
              case Some((text, rest)) =>
                ok && line == text && At(rest, old(From(incoming)))
    {
      line := "";
      while true
        invariant Valid() && open && Unread() == old(Unread())
        invariant Reach() == old(Reach()) && From(incoming) == old(From(incoming))
        decreases |incoming|
      {
        var nl := FindStr(rbuf, "\r\n", rpos);
        if nl.Some? {
          LineInBuffer(old(Reach()), rbuf, rpos, Before(incoming), nl.value);
          line := rbuf[rpos..nl.value];
          rpos := nl.value + 2;
          return true, line;
        }
        if Before(incoming) == "" {
          NoLineInBuffer(rbuf, rpos);
        }
        ok := FillBuffer();
        if !ok {
          return false, "";
        }
      }
    }

    // Without that many bytes, nothing is consumed.
    method ReadN(n: nat) returns (ok: bool, out: string)
      requires Valid() && open
      modifies this
      ensures Valid()
      ensures match Resp.ReadN(old(Reach()), n)
              case None =>
                && !ok && open == (old(From(incoming)) != [])
                && (open ==> Unread() == old(Unread()) && incoming == old(From(incoming))[1..])
              case Some((text, rest)) =>
                ok && out == text && At(rest, old(From(incoming)))
    {
      out := "";
      while |rbuf| - rpos < n + 2
        invariant Valid() && open && Unread() == old(Unread())
        invariant Reach() == old(Reach()) && From(incoming) == old(From(incoming))
        decreases |incoming|
      {
        ok := FillBuffer();
        if !ok { return; }
      }
      ok := true;
      out := rbuf[rpos..rpos + n];
      rpos := rpos + (n + 2);
      SplitBuffer(old(Reach()), rbuf, rpos - (n + 2), n, rpos - 2, Before(incoming));
    }

    // parseReply: a line, and what its first byte announces. A reply that does not arrive in time is given up, and
    // what has been consumed of it stays consumed.
    method ParseReply() returns (ok: bool, out: Resp.Reply)
      requires Valid() && open
      modifies this
      ensures Valid()
      ensures match Resp.ParseReply(old(Reach()))
              case None => !ok && GaveUp(Resp.LeftOf(old(Reach())), old(From(incoming)))
              case Some((r, rest)) => ok && out == r && At(rest, old(From(incoming)))
      decreases |Reach()|, 0
    {
      out := Resp.Nil;
      UnreadInOrder();
      var line;
      ok, line := ReadLine();
      if !ok { return; }
      UnreadInOrder();
      if line == "" { return false, out; }
      ok, out := ParseAs(line[0], line[1..]);
    }

    method ParseAs(tag: char, text: string) returns (ok: bool, out: Resp.Reply)
      requires Valid() && open
      modifies this
      ensures Valid()
      ensures match Resp.ParseAs(tag, text, old(Reach()))
              case None => !ok && GaveUp(Resp.LeftAs(tag, text, old(Reach())), old(From(incoming)))
              case Some((r, rest)) => ok && out == r && At(rest, old(From(incoming)))
      decreases |Reach()|, 2
    {
      out, ok := Resp.Nil, true;
      UnreadInOrder();
      match tag {
        case '+' => out := Resp.Status(text);
        case '-' => out := Resp.Error(text);
        case ':' => out := Resp.Integer(Strtoll(text));
        case '$' =>
          var len := Strtoll(text);
          if len < 0 { return; }
          var s;
          ok, s := ReadN(len);
          out := Resp.Bulk(s);
        case '*' =>
          var count := Strtoll(text);
          if count < 0 { return; }
          var es;
          ok, es := ParseElements(count);
          out := Resp.Array(es);
        case _ => ok := false;
      }
    }

    method ParseElements(count: nat) returns (ok: bool, es: seq<Resp.Reply>)
      requires Valid() && open
      modifies this
      ensures Valid()
      ensures match Resp.ParseMany(old(Reach()), count, [])
              case None => !ok && GaveUp(Resp.LeftOfMany(old(Reach()), count), old(From(incoming)))
              case Some((rs, rest)) => ok && es == rs && At(rest, old(From(incoming)))
      decreases |Reach()|, 1
    {
      es, ok := [], true;
      ghost var parsed, left := Resp.ParseMany(Reach(), count, []), Resp.LeftOfMany(Reach(), count);
      var i := 0;
      while i < count
        invariant i <= count && Valid() && ok && At(Reach(), old(From(incoming))) && |Reach()| <= |old(Reach())|
        invariant parsed == Resp.ParseMany(Reach(), count - i, es) && left == Resp.LeftOfMany(Reach(), count - i)
      {
        Resp.OneMore(Reach(), count - i, es);
        var e;
        ok, e := ParseReply();
        if !ok { return; }
        es := es + [e];
        i := i + 1;
      }
    }
  }
}
