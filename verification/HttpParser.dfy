// The incremental HTTP/1.x request parser, and what a connection does with it.
module HttpParser {
  import opened Wrappers
  import opened CacheEntries
  import opened Strings
  import opened Numbers
  import opened HttpHeaders

  datatype Request = Request(verb: string, target: string, version: string, headers: Headers,
                             body: string, path: string, query: string)

  // ---------------------------------------------------------------------------------------------
  // The head: everything in front of the first empty line.

  // std::getline on a stream of s that stands at p; it fails when nothing is left.
  function GetLine(s: string, p: nat): (r: Option<(string, nat)>)
    ensures r.Some? ==> p < r.value.1 <= |s|
  {
    if p >= |s| then None
    else match Find(s, '\n', p)
      case Some(nl) => Some((s[p..nl], nl + 1))
      case None => Some((s[p..], |s|))
  }

  function ChopReturn(line: string): string {
    if line != "" && line[|line| - 1] == '\r' then line[..|line| - 1] else line
  }

  predicate Blank(c: char) {
    c == ' ' || c == '\t'
  }

  // find_first_not_of(" \t")
  function FirstText(s: string, p: nat): (b: nat)
    requires p <= |s|
    ensures p <= b <= |s| && (b < |s| ==> !Blank(s[b]))
    decreases |s| - p
  {
    if p < |s| && Blank(s[p]) then FirstText(s, p + 1) else p
  }

  // find_last_not_of(" \t\r"), plus one; 0 stands for npos + 1
  function TextEnd(s: string): (e: nat)
    ensures e <= |s|
  {
    if s == "" then 0
    else if Blank(s[|s| - 1]) || s[|s| - 1] == '\r' then TextEnd(s[..|s| - 1])
    else |s|
  }

  // Drops blanks on both sides and carriage returns at the end. The length handed to substr is computed modulo
  // 2^64: a text of blanks and carriage returns that starts with a blank keeps everything from its first
  // carriage return on.
  function Trim(s: string): string {
    var b := FirstText(s, 0);
    if b == |s| then ""
    else
      var count := ToU64(TextEnd(s) - b);
      if b + count <= |s| then s[b..b + count] else s[b..]
  }

  function AddHeader(headers: Headers, line: string): Headers {
    match Find(line, ':', 0)
    case None => headers
    case Some(colon) =>
      var name := Trim(line[..colon]);
      if name == "" then headers else Assign(headers, name, Trim(line[colon + 1..]))
  }

  // The header lines from p on, up to the first empty one.
  function HeaderLines(block: string, p: nat, acc: Headers): Headers
    decreases |block| - p
  {
    match GetLine(block, p)
    case None => acc
    case Some((line, q)) =>
      if ChopReturn(line) == "" then acc else HeaderLines(block, q, AddHeader(acc, ChopReturn(line)))
  }

  function WordEnd(s: string, p: nat): (e: nat)
    requires p <= |s|
    ensures p <= e <= |s|
    decreases |s| - p
  {
    if p < |s| && !IsSpace(s[p]) then WordEnd(s, p + 1) else p
  }

  // is >> word
  function NextWord(s: string): Option<(string, string)> {
    var t := SkipSpace(s);
    var e := WordEnd(t, 0);
    if e == 0 then None else Some((t[..e], t[e..]))
  }

  function RequestLine(line: string): Option<(string, string, string)> {
    match NextWord(line)
    case None => None
    case Some((verb, rest)) =>
      match NextWord(rest)
      case None => None
      case Some((target, rest')) =>
        match NextWord(rest')
        case None => None
        case Some((version, _)) => Some((verb, target, version))
  }

  // Content-Length, when the framing headers are acceptable.
  function BodyLength(headers: Headers): (r: Option<nat>)
    ensures r.Some? ==> r.value < U64
  {
    if HeaderOf(headers, "Transfer-Encoding").Some? then None
    else match HeaderOf(headers, "Content-Length")
      case None => Some(0)
      case Some(text) => Stoull(text)
  }

  function Path(target: string): string {
    match Find(target, '?', 0) case None => target case Some(q) => target[..q]
  }

  function Query(target: string): string {
    match Find(target, '?', 0) case None => "" case Some(q) => target[q + 1..]
  }

  // Path and query of a target: the query is what follows the first question mark.
  predicate Splits(target: string, path: string, query: string) {
    if '?' in target then '?' !in path && target == path + "?" + query else path == target && query == ""
  }

  lemma SplitsAtMark(target: string)
    ensures Splits(target, Path(target), Query(target))
  {
    var q := Find(target, '?', 0);
    if q.Some? {
      assert target == target[..q.value] + "?" + target[q.value + 1..];
      assert forall j :: 0 <= j < q.value ==> target[..q.value][j] == target[j];
    }
  }

  // What the head says: the request without its body, and the length of the body.
  function ParseHead(block: string): (r: Option<(Request, nat)>)
    ensures r.Some? ==> r.value.1 < U64
  {
    match GetLine(block, 0)
    case None => None
    case Some((line, p)) =>
      match RequestLine(ChopReturn(line))
      case None => None
      case Some((verb, target, version)) =>
        var headers := HeaderLines(block, p, []);
        match BodyLength(headers)
        case None => None
        case Some(len) => Some((Request(verb, target, version, headers, "", Path(target), Query(target)), len))
  }

  // ---------------------------------------------------------------------------------------------
  // One call of parse.

  const HEAD_END := "\r\n\r\n"
  const HEAD_LIMIT := 64 * 1024

  // What a buffer starts with. `size` counts the head and the empty line behind it.
  datatype Head = Incomplete | Bad(size: nat) | Good(size: nat, request: Request, length: nat)

  function HeadOf(buf: string): (r: Head)
    ensures r.Good? ==> r.length < U64 && r.size <= |buf|
  {
    match FindStr(buf, HEAD_END, 0)
    case None => Incomplete
    case Some(h) =>
      match ParseHead(buf[..h])
      case None => Bad(h + 4)
      case Some((req, len)) => Good(h + 4, req, len)
  }

  datatype Parsed = NeedMore | Error | Complete(request: Request, total: nat)

  // buffer_.substr(start, len)
  function BodyAt(buf: string, start: nat, len: nat): string {
    if start + len <= |buf| then buf[start..start + len]
    else if start <= |buf| then buf[start..]
    else ""
  }

  // The message behind a good head; size_t arithmetic.
  function Framed(buf: string, size: nat, req: Request, len: nat): (r: Parsed)
    ensures r.Complete? ==> r.total <= |buf|
  {
    var total := ToU64(size + len);
    if |buf| < total then NeedMore else Complete(req.(body := BodyAt(buf, size, len)), total)
  }

  function ParsedAs(head: Head, buf: string): (r: Parsed)
    ensures r.Complete? ==> r.total <= |buf|
  {
    match head
    case Incomplete => if |buf| > HEAD_LIMIT then Error else NeedMore
    case Bad(_) => Error
    case Good(size, req, len) => Framed(buf, size, req, len)
  }

  function ParseOne(buf: string): Parsed {
    ParsedAs(HeadOf(buf), buf)
  }

  class RequestParser {
    var buffer: string

    constructor ()
      ensures buffer == ""
    {
      buffer := "";
    }

    method Feed(data: string)
      modifies this
      ensures buffer == old(buffer) + data
    {
      buffer := buffer + data;
    }

    method ParseHeaders(block: string, start: nat) returns (headers: Headers)
      ensures headers == HeaderLines(block, start, [])
    {
      headers := [];
      var p := start;
      while p < |block|
        invariant HeaderLines(block, start, []) == HeaderLines(block, p, headers)
      {
        var (line, q) := GetLine(block, p).value;
        p := q;
        line := ChopReturn(line);
        if line == "" { return; }
        headers := AddHeader(headers, line);
      }
    }

    method ReadHead(block: string) returns (r: Option<(Request, nat)>)
      ensures r == ParseHead(block)
    {
      var first := GetLine(block, 0);
      if first.None? { return None; }
      var words := RequestLine(ChopReturn(first.value.0));
      if words.None? { return None; }
      var (verb, target, version) := words.value;
      var headers := ParseHeaders(block, first.value.1);
      var len := ReadLength(headers);
      if len.None? { return None; }
      return Some((Request(verb, target, version, headers, "", Path(target), Query(target)), len.value));
    }

    method ReadLength(headers: Headers) returns (r: Option<nat>)
      ensures r == BodyLength(headers)
    {
      if HeaderOf(headers, "Transfer-Encoding").Some? { return None; }
      var text := HeaderOf(headers, "Content-Length");
      if text.None? { return Some(0); }
      return Stoull(text.value);
    }

    // The request is only meaningful when the state is Complete.
    method Parse() returns (r: Parsed)
      modifies this
      ensures r == ParseOne(old(buffer))
      ensures buffer == (if r.Complete? then old(buffer)[r.total..] else old(buffer))
    {
      var headerEnd := FindStr(buffer, HEAD_END, 0);
      if headerEnd.None? {
        return if |buffer| > HEAD_LIMIT then Error else NeedMore;
      }
      var h := headerEnd.value;
      var head := ReadHead(buffer[..h]);
      if head.None? { return Error; }
      var (req, len) := head.value;
      r := TakeMessage(h + 4, req, len);
    }

    method TakeMessage(size: nat, req: Request, len: nat) returns (r: Parsed)
      modifies this
      ensures r == Framed(old(buffer), size, req, len)
      ensures buffer == (if r.Complete? then old(buffer)[r.total..] else old(buffer))
    {
      var total := ToU64(size + len);
      if |buffer| < total { return NeedMore; }
      var body := BodyAt(buffer, size, len);
      r := Complete(req.(body := body), total);
      buffer := buffer[total..];
    }
  }

  predicate KeepAlive(req: Request) {
    var conn := match HeaderOf(req.headers, "Connection") case None => "" case Some(v) => v;
    if req.version == "HTTP/1.0" then SameName(Trim(conn), "keep-alive") else !SameName(Trim(conn), "close")
  }

  // ---------------------------------------------------------------------------------------------
  // What is known about a head does not change when more bytes arrive.

  ghost predicate StableAt(head: string -> Head, u: string, n: nat) {
    n <= |u| ==>
      head(u[..n]) == (if head(u) != Incomplete && head(u).size <= n then head(u) else Incomplete)
  }

  ghost predicate Stable(head: string -> Head) {
    forall u: string, n: nat {:trigger StableAt(head, u, n)} :: StableAt(head, u, n)
  }

  lemma HeadOfStable()
    ensures Stable(HeadOf)
  {
    forall u: string, n: nat ensures StableAt(HeadOf, u, n) {
      if n <= |u| { HeadOfPrefix(u, n); }
    }
  }

  lemma HeadOfPrefix(u: string, n: nat)
    requires n <= |u|
    ensures HeadOf(u[..n]) == (if HeadOf(u) != Incomplete && HeadOf(u).size <= n then HeadOf(u) else Incomplete)
  {
    FindStrInPrefix(u, n, HEAD_END);
    var r := FindStr(u, HEAD_END, 0);
    if r.Some? && r.value + 4 <= n {
      assert u[..n][..r.value] == u[..r.value];
    }
  }
}
