// Requests as text: what the parser, and the connection around it, make of a request line, header lines and a body.
module RequestTexts {
  import opened Wrappers
  import opened CacheEntries
  import opened Strings
  import opened Numbers
  import opened HttpHeaders
  import opened HttpParser
  import opened HttpStreams

  // ---------------------------------------------------------------------------------------------
  // What is written. No part of a line contains a line end.

  // A request line: three words with white space around them; what follows the third is ignored.
  datatype Start = Start(pre: string, verb: string, gap1: string, target: string, gap2: string,
                         version: string, post: string)

  // A header line with blanks around the name and the value, or a line without a colon.
  datatype Line = Field(left: string, name: string, mid: string, gap: string, value: string, right: string)
                | Noise(text: string)

  predicate Plain(s: string) {
    forall i :: 0 <= i < |s| ==> s[i] != '\r' && s[i] != '\n'
  }

  predicate Word(s: string) {
    s != "" && forall i :: 0 <= i < |s| ==> !IsSpace(s[i])
  }

  predicate Blanks(s: string) {
    forall i :: 0 <= i < |s| ==> Blank(s[i])
  }

  predicate Trimmed(s: string) {
    s != "" ==> !Blank(s[0]) && !Blank(s[|s| - 1])
  }

  function StartText(s: Start): string {
    s.pre + (s.verb + (s.gap1 + (s.target + (s.gap2 + (s.version + s.post)))))
  }

  predicate GoodStart(s: Start) {
    && Spaces(s.pre) && Spaces(s.gap1) && Spaces(s.gap2) && s.gap1 != "" && s.gap2 != ""
    && Word(s.verb) && Word(s.target) && Word(s.version)
    && (s.post != "" ==> IsSpace(s.post[0]))
    && Plain(StartText(s))
  }

  function LineText(l: Line): string {
    match l
    case Field(left, name, mid, gap, value, right) => left + name + mid + ":" + (gap + value + right)
    case Noise(text) => text
  }

  predicate GoodLine(l: Line) {
    && Plain(LineText(l))
    && match l
       case Field(left, name, mid, gap, value, right) =>
         && Blanks(left) && Blanks(mid) && Blanks(gap) && Blanks(right)
         && Trimmed(name) && ':' !in name && Trimmed(value) && Plain(name) && Plain(value)
       case Noise(text) => text != "" && ':' !in text
  }

  predicate GoodLines(ls: seq<Line>) {
    forall i :: 0 <= i < |ls| ==> GoodLine(ls[i])
  }

  function LinesText(ls: seq<Line>): string {
    if ls == [] then "" else "\r\n" + (LineText(ls[0]) + LinesText(ls[1..]))
  }

  function HeadText(s: Start, ls: seq<Line>): string {
    StartText(s) + LinesText(ls)
  }

  // What the header lines say of a name, in whatever case: the last line with the name counts.
  function Says(ls: seq<Line>, name: string): Option<string> {
    if ls == [] then None
    else
      var later := Says(ls[1..], name);
      if later.Some? then later
      else if ls[0].Field? && ls[0].name != "" && SameName(ls[0].name, name) then Some(ls[0].value)
      else None
  }

  // HTTP/1.0 closes unless told otherwise; later versions keep open unless told otherwise.
  predicate StaysOpen(version: string, connection: Option<string>) {
    if version == "HTTP/1.0" then connection.Some? && SameName(connection.value, "keep-alive")
    else !(connection.Some? && SameName(connection.value, "close"))
  }

  // The request that was written, with this body.
  ghost predicate Carries(req: Request, s: Start, ls: seq<Line>, body: string) {
    && req.verb == s.verb && req.target == s.target && req.version == s.version && req.body == body
    && Splits(s.target, req.path, req.query)
    && (forall name :: HeaderOf(req.headers, name) == Says(ls, name))
    && (KeepAlive(req) <==> StaysOpen(s.version, Says(ls, "Connection")))
  }

  // ---------------------------------------------------------------------------------------------
  // Words.

  lemma {:induction false} WordEndIs(s: string, p: nat, e: nat)
    requires p <= e <= |s| && (forall i :: p <= i < e ==> !IsSpace(s[i])) && (e < |s| ==> IsSpace(s[e]))
    ensures WordEnd(s, p) == e
    decreases e - p
  {
    if p < e {
      WordEndIs(s, p + 1, e);
    }
  }

  lemma NextWordIs(pre: string, word: string, rest: string)
    requires Spaces(pre) && Word(word) && (rest != "" ==> IsSpace(rest[0]))
    ensures NextWord(pre + (word + rest)) == Some((word, rest))
  {
    var t := word + rest;
    assert t[0] == word[0];
    SpacesSkipped(pre, t);
    assert forall i :: 0 <= i < |word| ==> t[i] == word[i];
    WordEndIs(t, 0, |word|);
    assert t[..|word|] == word && t[|word|..] == rest;
  }

  lemma NoNextWord(pre: string)
    requires Spaces(pre)
    ensures NextWord(pre) == None
  {
    SpacesSkipped(pre, "");
    assert pre + "" == pre;
  }

  lemma RequestLineIs(s: Start)
    requires GoodStart(s)
    ensures RequestLine(StartText(s)) == Some((s.verb, s.target, s.version))
  {
    var third := s.gap2 + (s.version + s.post);
    var second := s.gap1 + (s.target + third);
    NextWordIs(s.pre, s.verb, second);
    NextWordIs(s.gap1, s.target, third);
    NextWordIs(s.gap2, s.version, s.post);
  }

  // ---------------------------------------------------------------------------------------------
  // Trimming.

  lemma {:induction false} FirstTextIs(s: string, p: nat, b: nat)
    requires p <= b <= |s| && (forall i :: p <= i < b ==> Blank(s[i])) && (b < |s| ==> !Blank(s[b]))
    ensures FirstText(s, p) == b
    decreases b - p
  {
    if p < b {
      FirstTextIs(s, p + 1, b);
    }
  }

  lemma {:induction false} TextEndIs(s: string, e: nat)
    requires 0 < e <= |s| && !Blank(s[e - 1]) && s[e - 1] != '\r'
    requires forall i :: e <= i < |s| ==> Blank(s[i])
    ensures TextEnd(s) == e
  {
    if e < |s| {
      TextEndIs(s[..|s| - 1], e);
    }
  }

  lemma TrimIs(left: string, text: string, right: string)
    requires Blanks(left) && Blanks(right) && Trimmed(text) && Plain(text) && |text| < U64
    ensures Trim(left + text + right) == text
  {
    var s := left + text + right;
    if text == "" {
      forall i | 0 <= i < |s| ensures Blank(s[i]) {
        assert s[i] == if i < |left| then left[i] else right[i - |left|];
      }
      FirstTextIs(s, 0, |s|);
    } else {
      var b, e := |left|, |left| + |text|;
      assert forall i :: 0 <= i < b ==> s[i] == left[i];
      assert s[b] == text[0] && s[e - 1] == text[|text| - 1];
      assert forall i :: e <= i < |s| ==> s[i] == right[i - e];
      FirstTextIs(s, 0, b);
      TextEndIs(s, e);
      assert s[b..e] == text;
    }
  }

  // ---------------------------------------------------------------------------------------------
  // Header lines.

  function AddLine(headers: Headers, l: Line): Headers {
    if l.Field? && l.name != "" then Assign(headers, l.name, l.value) else headers
  }

  function AddLines(headers: Headers, ls: seq<Line>): Headers
    decreases |ls|
  {
    if ls == [] then headers else AddLines(AddLine(headers, ls[0]), ls[1..])
  }

  lemma ColonAt(front: string, back: string)
    requires ':' !in front
    ensures Find(front + ":" + back, ':', 0) == Some(|front|)
    ensures (front + ":" + back)[..|front|] == front && (front + ":" + back)[|front| + 1..] == back
  {
    var s := front + ":" + back;
    assert s[0..0 + |front|] == front;
    FindAfter(s, ':', 0, front);
  }

  lemma NoColonIn(left: string, name: string, mid: string)
    requires Blanks(left) && Blanks(mid) && ':' !in name
    ensures ':' !in left + name + mid
  {
  }

  lemma LineAdds(headers: Headers, l: Line)
    requires GoodLine(l) && |LineText(l)| < U64
    ensures AddHeader(headers, LineText(l)) == AddLine(headers, l)
  {
    match l
    case Field(left, name, mid, gap, value, right) =>
      NoColonIn(left, name, mid);
      ColonAt(left + name + mid, gap + value + right);
      TrimIs(left, name, mid);
      TrimIs(gap, value, right);
    case Noise(text) =>
      FindNone(text, ':', 0);
  }

  // A line at p, with nothing or a line end behind it.
  lemma LineRead(block: string, p: nat, text: string, rest: string)
    requires p < |block| && block[p..] == text + rest && Plain(text)
    requires rest == "" || StartsWith(rest, "\r\n")
    ensures var r := GetLine(block, p);
            && r.Some? && ChopReturn(r.value.0) == text
            && r.value.1 == p + |text| + (if rest == "" then 0 else 2)
            && block[r.value.1..] == (if rest == "" then "" else rest[2..])
  {
    assert forall i :: 0 <= i < |text| ==> block[p + i] == block[p..][i] == text[i];
    if rest == "" {
      FindNone(block, '\n', p);
      assert block[p..] == text;
    } else {
      var at := p + |text| + 1;
      assert block[at - 1] == block[p..][|text|] == rest[..2][0];
      assert block[at] == block[p..][|text| + 1] == rest[..2][1];
      FindIs(block, '\n', p, at);
      assert block[p..at][..|text|] == text;
      assert block[at + 1..] == block[p..][|text| + 2..] == rest[2..];
    }
  }

  lemma LinesTextStart(ls: seq<Line>)
    ensures ls != [] ==> StartsWith(LinesText(ls), "\r\n")
                         && LinesText(ls)[2..] == LineText(ls[0]) + LinesText(ls[1..])
    ensures ls == [] <==> LinesText(ls) == ""
  {
  }

  lemma {:induction false} LinesRead(block: string, p: nat, headers: Headers, ls: seq<Line>)
    requires ls != [] && GoodLines(ls) && p <= |block| < U64
    requires block[p..] == LineText(ls[0]) + LinesText(ls[1..])
    ensures HeaderLines(block, p, headers) == AddLines(headers, ls)
    decreases |ls|
  {
    var rest := ls[1..];
    assert GoodLine(ls[0]) && LineText(ls[0]) != "";
    LinesTextStart(rest);
    LineRead(block, p, LineText(ls[0]), LinesText(rest));
    LineAdds(headers, ls[0]);
    var q := GetLine(block, p).value.1;
    if rest != [] {
      LinesRead(block, q, AddLine(headers, ls[0]), rest);
    }
  }

  lemma {:induction false} LinesSay(headers: Headers, ls: seq<Line>, name: string)
    ensures HeaderOf(AddLines(headers, ls), name)
            == (if Says(ls, name).Some? then Says(ls, name) else HeaderOf(headers, name))
    decreases |ls|
  {
    if ls != [] {
      LinesSay(AddLine(headers, ls[0]), ls[1..], name);
      if ls[0].Field? {
        AssignLookup(headers, ls[0].name, ls[0].value, name);
      }
    }
  }

  // ---------------------------------------------------------------------------------------------
  // The head.

  // Behind every line end something of another line follows.
  predicate Lined(s: string) {
    forall i :: 0 <= i < |s| && s[i] == '\r' ==> i + 2 < |s| && s[i + 2] != '\r'
  }

  lemma LinedBehind(a: string, b: string)
    requires Plain(a) && Lined(b)
    ensures Lined(a + b)
  {
    forall i | 0 <= i < |a + b| && (a + b)[i] == '\r' ensures i + 2 < |a + b| && (a + b)[i + 2] != '\r' {
      assert b[i - |a|] == '\r';
    }
  }

  lemma LinedNext(s: string)
    requires s != "" && s[0] != '\r' && Lined(s)
    ensures Lined("\r\n" + s)
  {
    var t := "\r\n" + s;
    forall i | 0 <= i < |t| && t[i] == '\r' ensures i + 2 < |t| && t[i + 2] != '\r' {
      if i >= 2 {
        assert s[i - 2] == '\r';
      }
    }
  }

  lemma {:induction false} LinesLined(ls: seq<Line>)
    requires GoodLines(ls)
    ensures Lined(LinesText(ls))
  {
    if ls != [] {
      LinesLined(ls[1..]);
      assert GoodLine(ls[0]) && LineText(ls[0]) != "";
      LinedBehind(LineText(ls[0]), LinesText(ls[1..]));
      LinedNext(LineText(ls[0]) + LinesText(ls[1..]));
    }
  }

  lemma TwoReturns(t: string, p: nat)
    ensures OccursAt(t, HEAD_END, p) ==> t[p] == t[p + 2] == '\r'
  {
    if OccursAt(t, HEAD_END, p) {
      assert t[p] == t[p..p + 4][0] && t[p + 2] == t[p..p + 4][2];
    }
  }

  lemma HeadEnds(head: string, tail: string)
    requires Lined(head)
    ensures var buf := head + HEAD_END + tail;
            FindStr(buf, HEAD_END, 0) == Some(|head|) && buf[..|head|] == head && buf[|head| + 4..] == tail
  {
    var buf := head + HEAD_END + tail;
    Middle(head, HEAD_END, tail);
    forall p: nat | p < |head| ensures !OccursAt(buf, HEAD_END, p) {
      TwoReturns(buf, p);
    }
    FindStrIs(buf, HEAD_END, 0, |head|);
  }

  // The request without its body, and what its header lines say of the body's length.
  function Written(s: Start, ls: seq<Line>): Request {
    Request(s.verb, s.target, s.version, AddLines([], ls), "", Path(s.target), Query(s.target))
  }

  function Length(ls: seq<Line>): Option<nat> {
    if Says(ls, "Transfer-Encoding").Some? then None
    else if Says(ls, "Content-Length").None? then Some(0)
    else Stoull(Says(ls, "Content-Length").value)
  }

  lemma HeadersRead(block: string, line: string, ls: seq<Line>)
    requires block == line + LinesText(ls) && Plain(line) && line != "" && GoodLines(ls) && |block| < U64
    ensures var first := GetLine(block, 0);
            && first.Some? && ChopReturn(first.value.0) == line
            && HeaderLines(block, first.value.1, []) == AddLines([], ls)
  {
    LinesTextStart(ls);
    assert block[0..] == block;
    LineRead(block, 0, line, LinesText(ls));
    if ls != [] {
      LinesRead(block, |line| + 2, [], ls);
    }
  }

  lemma LengthRead(ls: seq<Line>)
    ensures BodyLength(AddLines([], ls)) == Length(ls)
  {
    LinesSay([], ls, "Transfer-Encoding");
    LinesSay([], ls, "Content-Length");
  }

  lemma HeadParsed(s: Start, ls: seq<Line>)
    requires GoodStart(s) && GoodLines(ls) && |HeadText(s, ls)| < U64
    ensures ParseHead(HeadText(s, ls))
            == (if Length(ls).Some? then Some((Written(s, ls), Length(ls).value)) else None)
  {
    HeadersRead(HeadText(s, ls), StartText(s), ls);
    RequestLineIs(s);
    LengthRead(ls);
  }

  lemma HeadLined(s: Start, ls: seq<Line>)
    requires GoodStart(s) && GoodLines(ls)
    ensures Lined(HeadText(s, ls))
  {
    LinesLined(ls);
    LinedBehind(StartText(s), LinesText(ls));
  }

  // The bytes are a good head, whatever follows them.
  ghost predicate Opens(head: Heads, front: string, req: Request, len: nat) {
    |front| + len < U64 && forall tail: string :: head(front + tail) == Good(|front|, req, len)
  }

  lemma HeadOfBlock(block: string, tail: string)
    requires Lined(block)
    ensures HeadOf(block + "\r\n\r\n" + tail)
            == match ParseHead(block)
               case None => Bad(|block| + 4)
               case Some((req, len)) => Good(|block| + 4, req, len)
  {
    HeadEnds(block, tail);
  }

  lemma BlockOpens(block: string, req: Request, len: nat)
    requires Lined(block) && ParseHead(block) == Some((req, len)) && |block| + 4 + len < U64
    ensures Opens(HeadOf, block + "\r\n\r\n", req, len)
  {
    forall tail: string ensures HeadOf(block + "\r\n\r\n" + tail) == Good(|block| + 4, req, len) {
      HeadOfBlock(block, tail);
    }
  }

  lemma HeadOpens(s: Start, ls: seq<Line>, len: nat)
    requires GoodStart(s) && GoodLines(ls) && Length(ls) == Some(len) && |HeadText(s, ls)| + 4 + len < U64
    ensures Opens(HeadOf, HeadText(s, ls) + "\r\n\r\n", Written(s, ls), len)
  {
    HeadLined(s, ls);
    HeadParsed(s, ls);
    BlockOpens(HeadText(s, ls), Written(s, ls), len);
  }

  lemma HeadFails(s: Start, ls: seq<Line>, tail: string)
    requires GoodStart(s) && GoodLines(ls) && Length(ls) == None && |HeadText(s, ls)| < U64
    ensures HeadOf(HeadText(s, ls) + "\r\n\r\n" + tail).Bad?
  {
    HeadLined(s, ls);
    HeadParsed(s, ls);
    HeadOfBlock(HeadText(s, ls), tail);
  }

  // ---------------------------------------------------------------------------------------------
  // The message.

  lemma {:induction false} SaysTrimmed(ls: seq<Line>, name: string)
    requires GoodLines(ls)
    ensures var said := Says(ls, name);
            said.Some? ==> Trimmed(said.value) && Plain(said.value) && |said.value| <= |LinesText(ls)|
  {
    if ls != [] {
      assert GoodLine(ls[0]);
      SaysTrimmed(ls[1..], name);
    }
  }

  lemma KeepsOpen(req: Request, said: string)
    requires HeaderOf(req.headers, "Connection") == Some(said) && Trim(said) == said
    ensures KeepAlive(req) <==> StaysOpen(req.version, Some(said))
  {
  }

  lemma OtherLength(s: string, t: string)
    requires |s| != |t|
    ensures !SameName(s, t)
  {
  }

  lemma KeepsOpenUnsaid(req: Request)
    requires HeaderOf(req.headers, "Connection") == None
    ensures KeepAlive(req) <==> StaysOpen(req.version, None)
  {
    TrimIs("", "", "");
    assert "" + "" + "" == "";
    OtherLength("", "keep-alive");
    OtherLength("", "close");
  }

  lemma WrittenSays(s: Start, ls: seq<Line>, body: string)
    requires GoodLines(ls) && |LinesText(ls)| < U64
    ensures Carries(Written(s, ls).(body := body), s, ls, body)
  {
    var req := Written(s, ls).(body := body);
    SplitsAtMark(s.target);
    forall name ensures HeaderOf(req.headers, name) == Says(ls, name) {
      LinesSay([], ls, name);
    }
    WrittenStays(s, ls, body);
  }

  lemma WrittenStays(s: Start, ls: seq<Line>, body: string)
    requires GoodLines(ls) && |LinesText(ls)| < U64
    ensures KeepAlive(Written(s, ls).(body := body)) <==> StaysOpen(s.version, Says(ls, "Connection"))
  {
    LinesSay([], ls, "Connection");
    SaysTrimmed(ls, "Connection");
    SaidIs(Written(s, ls).(body := body), Says(ls, "Connection"));
  }

  lemma SaidIs(req: Request, said: Option<string>)
    requires HeaderOf(req.headers, "Connection") == said
    requires said.Some? ==> Trimmed(said.value) && Plain(said.value) && |said.value| < U64
    ensures KeepAlive(req) <==> StaysOpen(req.version, said)
  {
    if said.Some? {
      TrimIs("", said.value, "");
      assert "" + said.value + "" == said.value;
      KeepsOpen(req, said.value);
    } else {
      KeepsOpenUnsaid(req);
    }
  }

  function MessageText(s: Start, ls: seq<Line>, tail: string): string {
    HeadText(s, ls) + "\r\n\r\n" + tail
  }

  // The request that was written is taken off the bytes, its body being the first `len` of what follows the head.
  ghost predicate Delivered(p: Parsed, s: Start, ls: seq<Line>, tail: string, len: nat) {
    && p.Complete? && len <= |tail|
    && p.total == |HeadText(s, ls)| + 4 + len
    && Carries(p.request, s, ls, tail[..len])
  }

  lemma ParsedWith(head: Heads, front: string, req: Request, len: nat, tail: string)
    requires Opens(head, front, req, len)
    ensures ParsedAs(head(front + tail), front + tail)
            == if |tail| < len then NeedMore else Complete(req.(body := tail[..len]), |front| + len)
  {
    assert head(front + tail) == Good(|front|, req, len);
    if len <= |tail| {
      assert (front + tail)[|front|..|front| + len] == tail[..len];
    }
  }

  lemma ThreeParts(a: string, b: string, c: string)
    ensures a + b + c == a + (b + c) && (b + c)[..|b|] == b
  {
  }

  lemma WholeParsed(head: Heads, front: string, req: Request, body: string, rest: string)
    requires Opens(head, front, req, |body|)
    ensures ParsedAs(head(front + body + rest), front + body + rest)
            == Complete(req.(body := body), |front + body|)
  {
    ParsedWith(head, front, req, |body|, body + rest);
    ThreeParts(front, body, rest);
  }

  // What becomes of a head and whatever follows it: a Transfer-Encoding or a Content-Length that is no number is an
  // error; otherwise the request is taken once its body is there.
  lemma MessageOutcome(s: Start, ls: seq<Line>, tail: string)
    requires GoodStart(s) && GoodLines(ls) && |HeadText(s, ls)| + 4 < U64
    ensures var p, length := ParseOne(MessageText(s, ls, tail)), Says(ls, "Content-Length");
            if Says(ls, "Transfer-Encoding").Some? then p.Error?
            else if length.None? then Delivered(p, s, ls, tail, 0)
            else if Stoull(length.value).None? then p.Error?
            else
              var len := Stoull(length.value).value;
              |HeadText(s, ls)| + 4 + len < U64 ==> if |tail| < len then p.NeedMore? else Delivered(p, s, ls, tail, len)
  {
    if Length(ls).None? {
      HeadFails(s, ls, tail);
    } else if |HeadText(s, ls)| + 4 + Length(ls).value < U64 {
      HeadOpens(s, ls, Length(ls).value);
      ParsedWith(HeadOf, HeadText(s, ls) + "\r\n\r\n", Written(s, ls), Length(ls).value, tail);
      if Length(ls).value <= |tail| {
        WrittenSays(s, ls, tail[..Length(ls).value]);
      }
    }
  }

  // Without an empty line the parser waits, for 64 KiB and no longer.
  lemma EndlessHead(buf: string)
    requires forall p: nat :: !OccursAt(buf, "\r\n\r\n", p)
    ensures ParseOne(buf) == if |buf| > 65536 then Error else NeedMore
  {
    var r := FindStr(buf, HEAD_END, 0);
  }

  // A request line of fewer than three words is an error.
  lemma ShortRequestLine(pre: string, word1: string, gap: string, word2: string, post: string, ls: seq<Line>,
                         tail: string)
    requires Spaces(pre) && Spaces(gap) && Spaces(post) && (word1 == "" || Word(word1)) && (word2 == "" || Word(word2))
    requires word2 != "" ==> gap != "" && word1 != ""
    requires Plain(pre + (word1 + (gap + (word2 + post)))) && GoodLines(ls)
    ensures ParseOne(pre + (word1 + (gap + (word2 + post))) + LinesText(ls) + "\r\n\r\n" + tail) == Error
  {
    var line := pre + (word1 + (gap + (word2 + post)));
    FewWords(pre, word1, gap, word2, post);
    LinesLined(ls);
    LinedBehind(line, LinesText(ls));
    var block := line + LinesText(ls);
    HeadEnds(block, tail);
    LinesTextStart(ls);
    if block != "" {
      assert block[0..] == line + LinesText(ls);
      LineRead(block, 0, line, LinesText(ls));
    }
  }

  lemma FewWords(pre: string, word1: string, gap: string, word2: string, post: string)
    requires Spaces(pre) && Spaces(gap) && Spaces(post) && (word1 == "" || Word(word1)) && (word2 == "" || Word(word2))
    requires word2 != "" ==> gap != "" && word1 != ""
    ensures RequestLine(pre + (word1 + (gap + (word2 + post)))) == None
  {
    if word2 != "" {
      NextWordIs(pre, word1, gap + (word2 + post));
      NextWordIs(gap, word2, post);
      NoNextWord(post);
    } else {
      assert gap + (word2 + post) == gap + post;
      assert Spaces(gap + post);
      NoNextWord(gap + post);
      if word1 != "" {
        NextWordIs(pre, word1, gap + post);
      } else {
        assert pre + (word1 + (gap + post)) == pre + (gap + post);
        NoNextWord(pre + (gap + post));
      }
    }
  }

  // ---------------------------------------------------------------------------------------------
  // Round trip.

  function FieldsText(fields: seq<(string, string)>): string {
    if fields == [] then "" else fields[0].0 + ": " + fields[0].1 + "\r\n" + FieldsText(fields[1..])
  }

  function RequestText(verb: string, target: string, version: string, fields: seq<(string, string)>,
                       body: string): string {
    verb + " " + target + " " + version + "\r\n" + FieldsText(fields) + "\r\n" + body
  }

  predicate GoodField(name: string, value: string) {
    name != "" && Trimmed(name) && Plain(name) && ':' !in name && Trimmed(value) && Plain(value)
  }

  predicate GoodFields(fields: seq<(string, string)>) {
    forall i :: 0 <= i < |fields| ==> GoodField(fields[i].0, fields[i].1)
  }

  predicate Different(fields: seq<(string, string)>) {
    forall i, j :: 0 <= i < j < |fields| ==> !SameName(fields[i].0, fields[j].0)
  }

  predicate Has(fields: seq<(string, string)>, name: string) {
    exists i :: 0 <= i < |fields| && SameName(fields[i].0, name)
  }

  // The fields give the length of the body: there is no transfer encoding, and a Content-Length, unless there is no
  // body to give it for.
  predicate FramesBody(fields: seq<(string, string)>, body: string) {
    && !Has(fields, "Transfer-Encoding")
    && Only(fields, "Content-Length", NatText(|body|))
    && (body != "" ==> Has(fields, "Content-Length"))
  }

  predicate Only(fields: seq<(string, string)>, name: string, value: string) {
    forall i :: 0 <= i < |fields| && SameName(fields[i].0, name) ==> fields[i].1 == value
  }

  function LinesOf(fields: seq<(string, string)>): (ls: seq<Line>)
    ensures |ls| == |fields|
    ensures forall i :: 0 <= i < |fields| ==> ls[i] == Field("", fields[i].0, "", " ", fields[i].1, "")
  {
    seq(|fields|, i requires 0 <= i < |fields| => Field("", fields[i].0, "", " ", fields[i].1, ""))
  }

  lemma FieldLine(name: string, value: string)
    requires GoodField(name, value)
    ensures var l := Field("", name, "", " ", value, "");
            GoodLine(l) && LineText(l) == name + ": " + value
  {
    var l := Field("", name, "", " ", value, "");
    assert LineText(l) == name + ": " + value;
  }

  lemma {:induction false} FieldLines(fields: seq<(string, string)>)
    requires GoodFields(fields)
    ensures GoodLines(LinesOf(fields)) && LinesText(LinesOf(fields)) + "\r\n" == "\r\n" + FieldsText(fields)
  {
    forall i | 0 <= i < |fields| ensures GoodLine(LinesOf(fields)[i]) {
      FieldLine(fields[i].0, fields[i].1);
    }
    if fields != [] {
      FieldLines(fields[1..]);
      FieldLine(fields[0].0, fields[0].1);
      assert LinesOf(fields)[1..] == LinesOf(fields[1..]);
      Shift(fields[0].0 + ": " + fields[0].1, "\r\n", LinesText(LinesOf(fields[1..])), FieldsText(fields[1..]));
    }
  }

  lemma Shift(line: string, c: string, lines: string, fields: string)
    requires lines + c == c + fields
    ensures c + (line + lines) + c == c + (line + c + fields)
  {
    assert c + (line + lines) + c == c + (line + (lines + c));
    assert line + (c + fields) == line + c + fields;
  }

  lemma Regroup(line: string, c: string, lines: string, fields: string, body: string, rest: string)
    requires lines + c == c + fields
    ensures line + c + fields + c + body + rest == line + lines + (c + c) + body + rest
  {
    assert line + c + fields == line + (c + fields);
    assert line + (lines + c) + c == line + lines + (c + c);
  }

  lemma WordsText(verb: string, target: string, version: string)
    ensures StartText(Start("", verb, " ", target, " ", version, "")) == verb + " " + target + " " + version
  {
  }

  lemma {:induction false} FieldsSay(fields: seq<(string, string)>, name: string)
    requires GoodFields(fields) && Different(fields)
    ensures forall i :: 0 <= i < |fields| && SameName(fields[i].0, name) ==>
              Says(LinesOf(fields), name) == Some(fields[i].1)
    ensures !Has(fields, name) ==> Says(LinesOf(fields), name) == None
  {
    if fields != [] {
      FieldsSay(fields[1..], name);
      assert LinesOf(fields)[1..] == LinesOf(fields[1..]);
      assert forall i :: 1 <= i < |fields| ==> fields[1..][i - 1] == fields[i];
    }
  }

  lemma RequestTextIs(verb: string, target: string, version: string, fields: seq<(string, string)>, body: string,
                      rest: string)
    requires GoodFields(fields)
    ensures RequestText(verb, target, version, fields, body) + rest
            == HeadText(Start("", verb, " ", target, " ", version, ""), LinesOf(fields)) + "\r\n\r\n" + body + rest
  {
    FieldLines(fields);
    WordsText(verb, target, version);
    Regroup(verb + " " + target + " " + version, "\r\n", LinesText(LinesOf(fields)), FieldsText(fields), body, rest);
    assert "\r\n" + "\r\n" == "\r\n\r\n";
  }

  lemma WordsGood(verb: string, target: string, version: string)
    requires Word(verb) && Word(target) && Word(version)
    ensures GoodStart(Start("", verb, " ", target, " ", version, ""))
  {
    var text := verb + " " + target + " " + version;
    WordsText(verb, target, version);
    forall i | 0 <= i < |text| ensures text[i] != '\r' && text[i] != '\n' {
      var j := i - |verb| - 1;
      if 0 <= j < |target| {
        assert text[i] == target[j];
      } else if j > |target| {
        assert text[i] == version[j - |target| - 1];
      }
    }
  }

  lemma OnlyValueSaid(fields: seq<(string, string)>, name: string, value: string)
    requires GoodFields(fields) && Different(fields) && Only(fields, name, value)
    ensures Says(LinesOf(fields), name) == (if Has(fields, name) then Some(value) else None)
  {
    FieldsSay(fields, name);
  }

  lemma FieldsFrame(fields: seq<(string, string)>, body: string)
    requires GoodFields(fields) && Different(fields) && FramesBody(fields, body) && |body| < U64
    ensures Length(LinesOf(fields)) == Some(|body|)
  {
    FieldsSay(fields, "Transfer-Encoding");
    OnlyValueSaid(fields, "Content-Length", NatText(|body|));
    StoullOfNat(|body|);
  }

  lemma RequestOpens(verb: string, target: string, version: string, fields: seq<(string, string)>, body: string)
    requires Word(verb) && Word(target) && Word(version) && GoodFields(fields) && Different(fields)
    requires FramesBody(fields, body) && |RequestText(verb, target, version, fields, body)| < U64
    ensures var s := Start("", verb, " ", target, " ", version, "");
            Opens(HeadOf, HeadText(s, LinesOf(fields)) + "\r\n\r\n", Written(s, LinesOf(fields)), |body|)
  {
    var s, ls := Start("", verb, " ", target, " ", version, ""), LinesOf(fields);
    WordsGood(verb, target, version);
    FieldLines(fields);
    SizeOfText(verb, target, version, fields, body);
    FieldsFrame(fields, body);
    HeadOpens(s, ls, |body|);
  }

  // A request that is written out is parsed back, whatever follows it: the three words, every header field in
  // whatever order they are written and in whatever case they are asked for, no others, and the body.
  lemma RequestComesBack(verb: string, target: string, version: string, fields: seq<(string, string)>, body: string,
                         rest: string)
    requires Word(verb) && Word(target) && Word(version) && GoodFields(fields) && Different(fields)
    requires FramesBody(fields, body)
    requires |RequestText(verb, target, version, fields, body)| < U64
    ensures var text := RequestText(verb, target, version, fields, body);
            var p := ParseOne(text + rest);
            && p.Complete? && p.total == |text|
            && p.request.verb == verb && p.request.target == target && p.request.version == version
            && Splits(target, p.request.path, p.request.query)
            && p.request.body == body
            && Holds(p.request.headers, fields)
  {
    var s, ls := Start("", verb, " ", target, " ", version, ""), LinesOf(fields);
    RequestOpens(verb, target, version, fields, body);
    RequestTextIs(verb, target, version, fields, body, rest);
    SizeOfText(verb, target, version, fields, body);
    WholeParsed(HeadOf, HeadText(s, ls) + "\r\n\r\n", Written(s, ls), body, rest);
    SplitsAtMark(target);
    FieldsHeld(fields);
  }

  lemma SizeOfText(verb: string, target: string, version: string, fields: seq<(string, string)>, body: string)
    requires GoodFields(fields)
    ensures |RequestText(verb, target, version, fields, body)|
            == |HeadText(Start("", verb, " ", target, " ", version, ""), LinesOf(fields))| + 4 + |body|
  {
    RequestTextIs(verb, target, version, fields, body, "");
  }

  // The headers are the fields: each is found under its name, and nothing else is.
  ghost predicate Holds(headers: Headers, fields: seq<(string, string)>) {
    && (forall i :: 0 <= i < |fields| ==> HeaderOf(headers, fields[i].0) == Some(fields[i].1))
    && (forall name :: HeaderOf(headers, name).Some? ==> Has(fields, name))
  }

  lemma FieldsHeld(fields: seq<(string, string)>)
    requires GoodFields(fields) && Different(fields)
    ensures Holds(AddLines([], LinesOf(fields)), fields)
  {
    var ls := LinesOf(fields);
    var headers := AddLines([], ls);
    forall i | 0 <= i < |fields| ensures HeaderOf(headers, fields[i].0) == Some(fields[i].1) {
      LinesSay([], ls, fields[i].0);
      FieldsSay(fields, fields[i].0);
    }
    forall name | HeaderOf(headers, name).Some? ensures Has(fields, name) {
      LinesSay([], ls, name);
      FieldsSay(fields, name);
    }
  }

  // ---------------------------------------------------------------------------------------------
  // Several requests in a row.

  datatype Message = Message(start: Start, lines: seq<Line>, body: string)

  function Text(m: Message): string {
    MessageText(m.start, m.lines, m.body)
  }

  // The header lines give the length of the body.
  predicate GoodMessage(m: Message) {
    GoodStart(m.start) && GoodLines(m.lines) && Length(m.lines) == Some(|m.body|) && |Text(m)| < U64
  }

  predicate Persistent(m: Message) {
    StaysOpen(m.start.version, Says(m.lines, "Connection"))
  }

  function RequestOf(m: Message): Request {
    Written(m.start, m.lines).(body := m.body)
  }

  lemma RequestOfCarries(m: Message)
    requires GoodMessage(m)
    ensures Carries(RequestOf(m), m.start, m.lines, m.body) && (KeepAlive(RequestOf(m)) <==> Persistent(m))
  {
    WrittenSays(m.start, m.lines, m.body);
  }

  function TextsOf(ms: seq<Message>): (r: seq<string>)
    ensures |r| == |ms| && forall i :: 0 <= i < |ms| ==> r[i] == Text(ms[i])
  {
    seq(|ms|, i requires 0 <= i < |ms| => Text(ms[i]))
  }

  predicate GoodMessages(ms: seq<Message>) {
    forall i :: 0 <= i < |ms| ==> GoodMessage(ms[i]) && Persistent(ms[i])
  }

  function Requests(ms: seq<Message>): (r: seq<Request>)
    ensures |r| == |ms| && forall i :: 0 <= i < |ms| ==> r[i] == RequestOf(ms[i])
  {
    seq(|ms|, i requires 0 <= i < |ms| => RequestOf(ms[i]))
  }

  // One turn of the connection's loop for a message: kept open, it goes on with what follows; otherwise it closes and
  // leaves what follows.
  lemma Turned(head: Heads, keep: Keeps, text: string, tail: string, req: Request)
    requires text != "" && ParsedAs(head(text + tail), text + tail) == Complete(req, |text|)
    ensures Drain(head, keep, text + tail)
            == if keep(req) then Prepend([req], Drain(head, keep, tail)) else Outcome([req], tail, Closed)
  {
    assert (text + tail)[|text|..] == tail;
  }

  // The text is always taken as the request, and the connection stays open.
  ghost predicate Taken(head: Heads, keep: Keeps, text: string, req: Request) {
    && text != "" && keep(req)
    && forall tail: string :: ParsedAs(head(text + tail), text + tail) == Complete(req, |text|)
  }

  lemma TakenWhole(head: Heads, keep: Keeps, front: string, req: Request, body: string)
    requires Opens(head, front, req, |body|) && front != "" && keep(req.(body := body))
    ensures Taken(head, keep, front + body, req.(body := body))
  {
    forall tail: string
      ensures ParsedAs(head(front + body + tail), front + body + tail) == Complete(req.(body := body), |front + body|)
    {
      WholeParsed(head, front, req, body, tail);
    }
  }

  lemma MessageTaken(m: Message)
    requires GoodMessage(m) && Persistent(m)
    ensures Taken(HeadOf, KeepAlive, Text(m), RequestOf(m))
  {
    HeadOpens(m.start, m.lines, |m.body|);
    RequestOfCarries(m);
    TakenWhole(HeadOf, KeepAlive, HeadText(m.start, m.lines) + "\r\n\r\n", Written(m.start, m.lines), m.body);
  }

  lemma {:induction false} AllTurned(head: Heads, keep: Keeps, texts: seq<string>, requests: seq<Request>, tail: string)
    requires |texts| == |requests|
    requires forall i :: 0 <= i < |texts| ==> Taken(head, keep, texts[i], requests[i])
    ensures Drain(head, keep, Concat(texts) + tail) == Prepend(requests, Drain(head, keep, tail))
    decreases |texts|
  {
    if texts == [] {
      assert Concat(texts) + tail == tail;
      PrependNone(Drain(head, keep, tail));
    } else {
      AllTurned(head, keep, texts[1..], requests[1..], tail);
      assert Concat(texts) + tail == texts[0] + (Concat(texts[1..]) + tail);
      assert Taken(head, keep, texts[0], requests[0]);
      Turned(head, keep, texts[0], Concat(texts[1..]) + tail, requests[0]);
      PrependTwice(requests[0], requests[1..], Drain(head, keep, tail));
      assert [requests[0]] + requests[1..] == requests;
    }
  }

  lemma PrependTwice(req: Request, more: seq<Request>, o: Outcome)
    ensures Prepend([req], Prepend(more, o)) == Prepend([req] + more, o)
  {
    assert [req] + (more + o.requests) == [req] + more + o.requests;
  }

  lemma PrependNone(o: Outcome)
    ensures Prepend([], o) == o
  {
    assert [] + o.requests == o.requests;
  }

  lemma AllDrained(ms: seq<Message>, tail: string)
    requires GoodMessages(ms)
    ensures Drain(HeadOf, KeepAlive, Concat(TextsOf(ms)) + tail)
            == Prepend(Requests(ms), Drain(HeadOf, KeepAlive, tail))
  {
    forall i | 0 <= i < |ms| ensures Taken(HeadOf, KeepAlive, TextsOf(ms)[i], Requests(ms)[i]) {
      assert GoodMessage(ms[i]) && Persistent(ms[i]);
      MessageTaken(ms[i]);
    }
    AllTurned(HeadOf, KeepAlive, TextsOf(ms), Requests(ms), tail);
  }

  // The requests, one for each message and in order.
  ghost predicate AllCarried(requests: seq<Request>, ms: seq<Message>) {
    |requests| == |ms|
    && forall i :: 0 <= i < |ms| ==> Carries(requests[i], ms[i].start, ms[i].lines, ms[i].body)
  }

  lemma RequestsCarry(ms: seq<Message>)
    requires forall i :: 0 <= i < |ms| ==> GoodMessage(ms[i])
    ensures AllCarried(Requests(ms), ms)
  {
    forall i | 0 <= i < |ms| ensures Carries(Requests(ms)[i], ms[i].start, ms[i].lines, ms[i].body) {
      RequestOfCarries(ms[i]);
    }
  }

  // Requests sent one behind the other on a connection that stays open are all handed over, in order, and then what
  // follows them is looked at as if they had not been there.
  lemma PipelinedRequests(ms: seq<Message>, tail: string) returns (requests: seq<Request>)
    requires GoodMessages(ms)
    ensures AllCarried(requests, ms)
    ensures Drain(HeadOf, KeepAlive, Concat(TextsOf(ms)) + tail) == Prepend(requests, Drain(HeadOf, KeepAlive, tail))
  {
    requests := Requests(ms);
    RequestsCarry(ms);
    AllDrained(ms, tail);
  }

  lemma LastDrained(last: Message, tail: string)
    requires GoodMessage(last) && !Persistent(last)
    ensures Drain(HeadOf, KeepAlive, Text(last) + tail) == Outcome([RequestOf(last)], tail, Closed)
  {
    HeadOpens(last.start, last.lines, |last.body|);
    RequestOfCarries(last);
    var front := HeadText(last.start, last.lines) + "\r\n\r\n";
    WholeParsed(HeadOf, front, Written(last.start, last.lines), last.body, tail);
    Turned(HeadOf, KeepAlive, Text(last), tail, RequestOf(last));
  }

  lemma RequestsSnoc(ms: seq<Message>, last: Message)
    ensures Requests(ms + [last]) == Requests(ms) + [RequestOf(last)]
  {
  }

  lemma GoodSnoc(ms: seq<Message>, last: Message)
    requires GoodMessages(ms) && GoodMessage(last)
    ensures forall i :: 0 <= i < |ms + [last]| ==> GoodMessage((ms + [last])[i])
  {
  }

  // The first request that ends the connection is the last one handed over; what follows it stays where it is.
  lemma ClosingRequest(ms: seq<Message>, last: Message, tail: string) returns (requests: seq<Request>)
    requires GoodMessages(ms) && GoodMessage(last) && !Persistent(last)
    ensures AllCarried(requests, ms + [last])
    ensures Drain(HeadOf, KeepAlive, Concat(TextsOf(ms)) + (Text(last) + tail)) == Outcome(requests, tail, Closed)
  {
    requests := Requests(ms + [last]);
    GoodSnoc(ms, last);
    RequestsCarry(ms + [last]);
    AllDrained(ms, Text(last) + tail);
    LastDrained(last, tail);
    RequestsSnoc(ms, last);
  }
}
