// The Redis wire protocol (RESP2): commands as RedisConnection encodes them, replies as it parses them.
module Resp {
  import opened Wrappers
  import opened Strings
  import opened Numbers

  datatype Reply =
    | Nil
    | Status(str: string)
    | Error(str: string)
    | Integer(integer: int)
    | Bulk(str: string)
    | Array(elements: seq<Reply>)

  const CRLF := "\r\n"

  // ---------------------------------------------------------------------------------------------
  // Parsing a stream that is known to its end: a result and what is left of the stream.

  function ReadLine(u: string): (r: Option<(string, string)>)
    ensures r.Some? ==> |r.value.1| + 2 <= |u|
  {
    match FindStr(u, CRLF, 0)
    case None => None
    case Some(nl) => Some((u[..nl], u[nl + 2..]))
  }

  // n bytes and the two bytes behind them, whatever those are.
  function ReadN(u: string, n: nat): (r: Option<(string, string)>)
    ensures r.Some? ==> |r.value.1| + 2 <= |u|
  {
    if |u| < n + 2 then None else Some((u[..n], u[n + 2..]))
  }

  function ParseReply(u: string): (r: Option<(Reply, string)>)
    ensures r.Some? ==> |r.value.1| < |u|
    decreases |u|, 0
  {
    match ReadLine(u)
    case None => None
    case Some((line, rest)) => if line == "" then None else ParseAs(line[0], line[1..], rest)
  }

  function ParseAs(tag: char, text: string, u: string): (r: Option<(Reply, string)>)
    ensures r.Some? ==> |r.value.1| <= |u|
    decreases |u|, 2
  {
    if tag == '+' then Some((Status(text), u))
    else if tag == '-' then Some((Error(text), u))
    else if tag == ':' then Some((Integer(Strtoll(text)), u))
    else if tag == '$' then ParseBulk(Strtoll(text), u)
    else if tag == '*' then
      var count := Strtoll(text);
      if count < 0 then Some((Nil, u))
      else match ParseMany(u, count, [])
        case None => None
        case Some((es, rest)) => Some((Array(es), rest))
    else None
  }

  function ParseBulk(len: int, u: string): (r: Option<(Reply, string)>)
    ensures r.Some? ==> |r.value.1| <= |u|
  {
    if len < 0 then Some((Nil, u))
    else match ReadN(u, len)
      case None => None
      case Some((s, rest)) => Some((Bulk(s), rest))
  }

  function ParseMany(u: string, count: nat, acc: seq<Reply>): (r: Option<(seq<Reply>, string)>)
    ensures r.Some? ==> |r.value.1| <= |u|
    decreases |u|, 1
  {
    if count == 0 then Some((acc, u))
    else match ParseReply(u)
      case None => None
      case Some((e, rest)) => ParseMany(rest, count - 1, acc + [e])
  }

  // What has not been consumed when the parser gives up.

  function LeftOf(u: string): (left: string)
    ensures |left| <= |u|
    decreases |u|, 0
  {
    match ReadLine(u)
    case None => u
    case Some((line, rest)) => if line == "" then rest else LeftAs(line[0], line[1..], rest)
  }

  function LeftAs(tag: char, text: string, u: string): (left: string)
    ensures |left| <= |u|
    decreases |u|, 2
  {
    if tag == '*' && Strtoll(text) >= 0 then LeftOfMany(u, Strtoll(text)) else u
  }

  function LeftOfMany(u: string, count: nat): (left: string)
    ensures |left| <= |u|
    decreases |u|, 1
  {
    if count == 0 then u
    else match ParseReply(u)
      case None => LeftOf(u)
      case Some((_, rest)) => LeftOfMany(rest, count - 1)
  }

  lemma OneMore(u: string, count: nat, acc: seq<Reply>)
    requires count > 0
    ensures match ParseReply(u)
            case None => ParseMany(u, count, acc) == None && LeftOfMany(u, count) == LeftOf(u)
            case Some((e, rest)) =>
              && ParseMany(u, count, acc) == ParseMany(rest, count - 1, acc + [e])
              && LeftOfMany(u, count) == LeftOfMany(rest, count - 1)
  {
  }

  lemma LineStays(u: string, more: string)
    requires ReadLine(u).Some?
    ensures var (line, rest) := ReadLine(u).value; ReadLine(u + more) == Some((line, rest + more))
  {
    var nl := FindStr(u, CRLF, 0).value;
    assert (u + more)[..|u|] == u;
    FindStrInPrefix(u + more, |u|, CRLF);
    assert (u + more)[..nl] == u[..nl] && (u + more)[nl + 2..] == u[nl + 2..] + more;
  }

  lemma BytesStay(u: string, n: nat, more: string)
    requires n + 2 <= |u|
    ensures ReadN(u + more, n) == Some((u[..n], u[n + 2..] + more))
  {
    assert (u + more)[..n] == u[..n] && (u + more)[n + 2..] == u[n + 2..] + more;
  }

  // A reply that has arrived is the same whatever arrives behind it.
  lemma {:induction false} ReplyStays(u: string, more: string)
    requires ParseReply(u).Some?
    ensures ParseReply(u + more) == Some((ParseReply(u).value.0, ParseReply(u).value.1 + more))
    decreases |u|, 0
  {
    LineStays(u, more);
    var (line, rest) := ReadLine(u).value;
    TaggedStays(line[0], line[1..], rest, more);
  }

  lemma {:induction false} TaggedStays(tag: char, text: string, u: string, more: string)
    requires ParseAs(tag, text, u).Some?
    ensures var (r, rest) := ParseAs(tag, text, u).value; ParseAs(tag, text, u + more) == Some((r, rest + more))
    decreases |u|, 2
  {
    if tag == '$' && Strtoll(text) >= 0 {
      BytesStay(u, Strtoll(text), more);
    } else if tag == '*' && Strtoll(text) >= 0 {
      ElementsStay(u, Strtoll(text), [], more);
    }
  }

  lemma {:induction false} ElementsStay(u: string, count: nat, acc: seq<Reply>, more: string)
    requires ParseMany(u, count, acc).Some?
    ensures var (es, rest) := ParseMany(u, count, acc).value; ParseMany(u + more, count, acc) == Some((es, rest + more))
    decreases |u|, 1
  {
    if count > 0 {
      ReplyStays(u, more);
      var (e, rest) := ParseReply(u).value;
      ElementsStay(rest, count - 1, acc + [e], more);
    }
  }

  // The parser can be called again for the same reply exactly when it gave up on the reply's first line.
  lemma CanBeTriedAgain(u: string, more: string)
    requires ParseReply(u) == None
    ensures LeftOf(u) + more == u + more <==> ReadLine(u) == None
  {
    assert |LeftOf(u) + more| == |LeftOf(u)| + |more|;
  }

  // ---------------------------------------------------------------------------------------------
  // Writing. Render is the protocol's text of a reply; a command is an array of bulk strings.

  function Header(tag: char, n: int): string {
    [tag] + IntText(n) + CRLF
  }

  function Render(r: Reply): string {
    match r
    case Nil => "$-1\r\n"
    case Status(s) => "+" + s + CRLF
    case Error(s) => "-" + s + CRLF
    case Integer(i) => Header(':', i)
    case Bulk(s) => Header('$', |s|) + s + CRLF
    case Array(es) => Header('*', |es|) + RenderAll(es)
  }

  function RenderAll(es: seq<Reply>): string {
    if es == [] then "" else Render(es[0]) + RenderAll(es[1..])
  }

  function Command(args: seq<string>): Reply {
    Array(seq(|args|, i requires 0 <= i < |args| => Bulk(args[i])))
  }

  lemma {:induction false} RenderAllSnoc(es: seq<Reply>, e: Reply)
    ensures RenderAll(es + [e]) == RenderAll(es) + Render(e)
  {
    if es == [] {
      assert es + [e] == [e] && RenderAll([e]) == Render(e) + RenderAll([e][1..]);
    } else {
      assert (es + [e])[1..] == es[1..] + [e];
      RenderAllSnoc(es[1..], e);
    }
  }

  lemma AppendBulk(start: string, done: string, header: string, s: string)
    ensures start + done + header + s + CRLF == start + (done + (header + s + CRLF))
  {
  }

  method Encode(args: seq<string>) returns (out: string)
    ensures out == Render(Command(args))
  {
    ghost var es := Command(args).elements;
    ghost var start := Header('*', |args|);
    out := "*" + IntText(|args|) + "\r\n";
    for i := 0 to |args|
      invariant out == start + RenderAll(es[..i])
    {
      RenderAllSnoc(es[..i], es[i]);
      assert es[..i] + [es[i]] == es[..i + 1];
      AppendBulk(start, RenderAll(es[..i]), Header('$', |args[i]|), args[i]);
      out := out + ("$" + IntText(|args[i]|) + "\r\n");
      out := out + args[i];
      out := out + "\r\n";
    }
    assert es[..|args|] == es;
  }

  // ---------------------------------------------------------------------------------------------
  // What is rendered is parsed back, whatever follows it; what is cut short is not taken for a reply.

  ghost predicate OneLine(s: string) {
    forall p :: !OccursAt(s, CRLF, p)
  }

  ghost predicate Sendable(r: Reply) {
    match r
    case Nil => true
    case Status(s) => OneLine(s)
    case Error(s) => OneLine(s)
    case Integer(i) => -LLONG_MAX - 1 <= i <= LLONG_MAX
    case Bulk(s) => |s| <= LLONG_MAX
    case Array(es) => |es| <= LLONG_MAX && forall i :: 0 <= i < |es| ==> Sendable(es[i])
  }

  lemma CrlfAt(t: string, p: nat)
    ensures OccursAt(t, CRLF, p) <==> p + 2 <= |t| && t[p] == '\r' && t[p + 1] == '\n'
  {
    if p + 2 <= |t| {
      assert t[p..p + 2] == [t[p], t[p + 1]];
    }
  }

  lemma NoReturn(s: string)
    requires '\r' !in s
    ensures OneLine(s)
  {
    forall p: nat ensures !OccursAt(s, CRLF, p) {
      CrlfAt(s, p);
    }
  }

  lemma LineIs(u: string, line: string, rest: string)
    requires OneLine(line) && u == line + CRLF + rest
    ensures ReadLine(u) == Some((line, rest))
  {
    var n := |line|;
    assert u[n] == '\r' && u[n + 1] == '\n';
    CrlfAt(u, n);
    forall p | 0 <= p < n ensures !OccursAt(u, CRLF, p) {
      CrlfAt(u, p);
      CrlfAt(line, p);
    }
    FindStrIs(u, CRLF, 0, n);
    assert u[..n] == line && u[n + 2..] == rest;
  }

  lemma LineCut(u: string, line: string)
    requires OneLine(line) && u < line + CRLF
    ensures ReadLine(u) == None
  {
    var all := line + CRLF;
    assert forall i :: 0 <= i < |u| ==> u[i] == all[i];
    if FindStr(u, CRLF, 0).Some? {
      var p := FindStr(u, CRLF, 0).value;
      CrlfAt(u, p);
      CrlfAt(line, p);
    }
  }

  // A header line and what stands behind it.
  lemma HeaderIs(u: string, tag: char, n: int, rest: string)
    requires tag != '\r' && -LLONG_MAX - 1 <= n <= LLONG_MAX && u == Header(tag, n) + rest
    ensures ReadLine(u) == Some(([tag] + IntText(n), rest)) && Strtoll(IntText(n)) == n
  {
    IntTextPlain(n);
    StrtollOfInt(n);
    NoReturn([tag] + IntText(n));
    LineIs(u, [tag] + IntText(n), rest);
  }

  lemma HeaderCut(u: string, tag: char, n: int)
    requires tag != '\r' && u < Header(tag, n)
    ensures ParseReply(u) == None
  {
    IntTextPlain(n);
    NoReturn([tag] + IntText(n));
    LineCut(u, [tag] + IntText(n));
  }

  lemma LineThen(u: string, tag: char, text: string, rest: string)
    requires ReadLine(u) == Some(([tag] + text, rest))
    ensures ParseReply(u) == ParseAs(tag, text, rest)
  {
    assert ([tag] + text)[0] == tag && ([tag] + text)[1..] == text;
  }

  // The reply behind a header line.
  lemma HeaderThen(u: string, tag: char, n: int, rest: string)
    requires tag != '\r' && -LLONG_MAX - 1 <= n <= LLONG_MAX && u == Header(tag, n) + rest
    ensures tag == '$' ==> ParseReply(u) == ParseBulk(n, rest)
    ensures tag == ':' ==> ParseReply(u) == Some((Integer(n), rest))
    ensures tag == '*' && n >= 0 ==> ParseReply(u) == (match ParseMany(rest, n, [])
      case None => None
      case Some((es, left)) => Some((Array(es), left)))
  {
    HeaderIs(u, tag, n, rest);
    LineThen(u, tag, IntText(n), rest);
  }

  lemma TextLineIs(u: string, tag: char, s: string, rest: string)
    requires (tag == '+' || tag == '-') && OneLine(s) && u == [tag] + s + CRLF + rest
    ensures ParseReply(u) == Some((if tag == '+' then Status(s) else Error(s), rest))
  {
    TaggedOneLine(tag, s);
    LineIs(u, [tag] + s, rest);
    assert ([tag] + s)[1..] == s;
  }

  lemma TaggedOneLine(tag: char, s: string)
    requires tag != '\r' && OneLine(s)
    ensures OneLine([tag] + s)
  {
    forall p: nat ensures !OccursAt([tag] + s, CRLF, p) {
      CrlfAt([tag] + s, p);
      if p > 0 { CrlfAt(s, p - 1); }
    }
  }

  lemma {:induction false} ParsesBack(r: Reply, rest: string)
    requires Sendable(r)
    ensures ParseReply(Render(r) + rest) == Some((r, rest))
    decreases r, 1
  {
    var u := Render(r) + rest;
    match r {
      case Nil => NilBack(u, rest);
      case Status(s) => TextLineIs(u, '+', s, rest);
      case Error(s) => TextLineIs(u, '-', s, rest);
      case Integer(i) => HeaderThen(u, ':', i, rest);
      case Bulk(s) => BulkBack(u, s, rest);
      case Array(es) =>
        AllParseBack(es, [], rest);
        ArrayBack(u, RenderAll(es), es, rest);
    }
  }

  lemma NilBack(u: string, rest: string)
    requires u == "$-1\r\n" + rest
    ensures ParseReply(u) == Some((Nil, rest))
  {
    assert IntText(-1) == "-1";
    HeaderThen(u, '$', -1, rest);
  }

  lemma ArrayBack(u: string, all: string, es: seq<Reply>, rest: string)
    requires |es| <= LLONG_MAX && u == Header('*', |es|) + all + rest
    requires ParseMany(all + rest, |es|, []) == Some(([] + es, rest))
    ensures ParseReply(u) == Some((Array(es), rest))
  {
    assert u == Header('*', |es|) + (all + rest) && [] + es == es;
    HeaderThen(u, '*', |es|, all + rest);
  }

  lemma BulkBack(u: string, s: string, rest: string)
    requires |s| <= LLONG_MAX && u == Header('$', |s|) + s + CRLF + rest
    ensures ParseReply(u) == Some((Bulk(s), rest))
  {
    var v := s + CRLF + rest;
    assert u == Header('$', |s|) + v;
    HeaderThen(u, '$', |s|, v);
    assert v[..|s|] == s && v[|s| + 2..] == rest;
  }

  lemma {:induction false} AllParseBack(es: seq<Reply>, acc: seq<Reply>, rest: string)
    requires forall i :: 0 <= i < |es| ==> Sendable(es[i])
    ensures ParseMany(RenderAll(es) + rest, |es|, acc) == Some((acc + es, rest))
    decreases es, 0
  {
    var u := RenderAll(es) + rest;
    if es == [] {
      assert u == rest && acc + es == acc;
    } else {
      var tail := RenderAll(es[1..]) + rest;
      Associate(Render(es[0]), RenderAll(es[1..]), rest);
      ParsesBack(es[0], tail);
      AllParseBack(es[1..], acc + [es[0]], rest);
      Regroup(acc, es);
    }
  }

  lemma Associate(a: string, b: string, c: string)
    ensures (a + b) + c == a + (b + c)
  {
  }

  lemma Regroup(acc: seq<Reply>, es: seq<Reply>)
    requires es != []
    ensures acc + [es[0]] + es[1..] == acc + es
  {
  }

  lemma Cut(u: string, t: string, rest: string)
    requires u < t + rest
    ensures |u| < |t| ==> u < t
    ensures |u| >= |t| ==> u == t + u[|t|..] && u[|t|..] < rest
  {
    var all := t + rest;
    assert forall i :: 0 <= i < |u| ==> u[i] == all[i];
    if |u| < |t| {
      assert u == t[..|u|];
    }
  }

  // A reply that has not arrived completely is never mistaken for a complete one.
  lemma {:induction false} CutIsNotParsed(u: string, r: Reply)
    requires Sendable(r) && u < Render(r)
    ensures ParseReply(u) == None
    decreases r, 1
  {
    match r {
      case Nil => HeaderCut(u, '$', -1);
      case Status(s) => TaggedOneLine('+', s); LineCut(u, "+" + s);
      case Error(s) => TaggedOneLine('-', s); LineCut(u, "-" + s);
      case Integer(i) => HeaderCut(u, ':', i);
      case Bulk(s) => BulkCut(u, s);
      case Array(es) =>
        var start := Header('*', |es|);
        Cut(u, start, RenderAll(es));
        if |u| < |start| {
          HeaderCut(u, '*', |es|);
        } else {
          HeaderThen(u, '*', |es|, u[|start|..]);
          CutIsNotAll(u[|start|..], es, []);
        }
    }
  }

  lemma BulkCut(u: string, s: string)
    requires |s| <= LLONG_MAX && u < Header('$', |s|) + s + CRLF
    ensures ParseReply(u) == None
  {
    var start := Header('$', |s|);
    assert start + s + CRLF == start + (s + CRLF);
    Cut(u, start, s + CRLF);
    if |u| < |start| {
      HeaderCut(u, '$', |s|);
    } else {
      HeaderThen(u, '$', |s|, u[|start|..]);
    }
  }

  lemma {:induction false} CutIsNotAll(u: string, es: seq<Reply>, acc: seq<Reply>)
    requires forall i :: 0 <= i < |es| ==> Sendable(es[i])
    requires u < RenderAll(es)
    ensures ParseMany(u, |es|, acc) == None
    decreases es, 0
  {
    var t := Render(es[0]);
    Cut(u, t, RenderAll(es[1..]));
    if |u| < |t| {
      CutIsNotParsed(u, es[0]);
    } else {
      ParsesBack(es[0], u[|t|..]);
      CutIsNotAll(u[|t|..], es[1..], acc + [es[0]]);
    }
  }

  // A command is parsed back as the array of its arguments, for any bytes in them.
  lemma CommandParsesBack(args: seq<string>, rest: string)
    requires |args| <= LLONG_MAX && forall i :: 0 <= i < |args| ==> |args[i]| <= LLONG_MAX
    ensures ParseReply(Render(Command(args)) + rest) == Some((Command(args), rest))
  {
    ParsesBack(Command(args), rest);
  }

  // A negative count is the null reply, as a negative length is.
  lemma NullReplies(n: int, rest: string)
    requires -LLONG_MAX - 1 <= n < 0
    ensures ParseReply(Header('*', n) + rest) == Some((Nil, rest))
    ensures ParseReply(Header('$', n) + rest) == Some((Nil, rest))
  {
    HeaderIs(Header('*', n) + rest, '*', n, rest);
    LineThen(Header('*', n) + rest, '*', IntText(n), rest);
    HeaderThen(Header('$', n) + rest, '$', n, rest);
  }

  // A line that is empty or starts with none of the five marks is no reply.
  lemma NoReply(line: string, rest: string)
    requires OneLine(line) && (line == "" || line[0] !in {'+', '-', ':', '$', '*'})
    ensures ParseReply(line + CRLF + rest) == None
  {
    LineIs(line + CRLF + rest, line, rest);
  }
}
