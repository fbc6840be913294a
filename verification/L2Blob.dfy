// The text form in which RedisL2Cache keeps an object in Redis: a version mark and the numbers of the entry in decimal,
// each on a line of its own, and the strings, each with its length in front of it, so that a string may contain any
// bytes at all; the number of headers stands before the headers. Writing is a stream of fields, reading a cursor that
// moves over the text; both are stated here as lists of fields, of which FieldLists has the theory.
module L2Blob {
  import opened Wrappers
  import opened CacheEntries
  import opened FieldLists
  import opened Strings
  import opened Numbers
  import opened HttpHeaders
  import opened L2Freshness

  type Object = Stored<Payload>


  // ---------------------------------------------------------------------------------------------
  // Writing. A blob is made of lines, and of strings that follow a line with their length.

  function LineText(s: string): string {
    s + "\n"
  }

  function StrText(s: string): string {
    NatText(|s|) + "\n" + s + "\n"
  }

  // The fields of the head, by number.
  function HeadText(o: Object, i: nat): string {
    var p := o.payload;
    if i == 0 then LineText("EC2")
    else if i == 1 then LineText(IntText(p.status))
    else if i == 2 then LineText(NatText(o.ttlSeconds))
    else if i == 3 then LineText(NatText(o.swrSeconds))
    else if i == 4 then LineText(NatText(o.stampMs))
    else if i == 5 then StrText(p.reason)
    else if i == 6 then StrText(p.etag)
    else LineText(NatText(|p.headers|))
  }

  function HeadTexts(o: Object): seq<string> {
    seq(8, i requires 0 <= i < 8 => HeadText(o, i))
  }

  function TailStrings(h: Headers, body: string): (ss: seq<string>)
    ensures |ss| == 2 * |h| + 1
    ensures forall i :: 0 <= i < |h| ==> ss[2 * i] == h[i].0 && ss[2 * i + 1] == h[i].1
    ensures ss[2 * |h|] == body
  {
    seq(2 * |h| + 1, i requires 0 <= i < 2 * |h| + 1 =>
      if i == 2 * |h| then body else if i % 2 == 0 then h[i / 2].0 else h[i / 2].1)
  }

  function StrTexts(ss: seq<string>): seq<string> {
    seq(|ss|, i requires 0 <= i < |ss| => StrText(ss[i]))
  }

  function TailTexts(o: Object): seq<string> {
    StrTexts(TailStrings(o.payload.headers, o.payload.body))
  }

  function BlobText(o: Object): string {
    Flatten(HeadTexts(o)) + Flatten(TailTexts(o))
  }

  // A line of the blob.
  method WriteLine(os: string, text: string, ghost texts: seq<string>, ghost i: nat) returns (r: string)
    requires i < |texts| && os == Flatten(texts[..i]) && texts[i] == LineText(text)
    ensures r == Flatten(texts[..i + 1])
  {
    r := os + text;
    r := r + "\n";
    FlattenSnoc(texts, i);
  }

  // writeStr; `start` is what the stream held before the strings that texts lists
  method WriteStr(os: string, s: string, ghost start: string, ghost texts: seq<string>,
                  ghost i: nat) returns (r: string)
    requires i < |texts| && os == start + Flatten(texts[..i]) && texts[i] == StrText(s)
    ensures r == start + Flatten(texts[..i + 1])
  {
    r := os + NatText(|s|);
    r := r + "\n";
    r := r + s;
    r := r + "\n";
    FlattenSnoc(texts, i);
  }

  method Serialize(o: Object) returns (os: string)
    ensures os == BlobText(o)
  {
    os := SerializeHead(o, HeadTexts(o));
    os := SerializeTail(os, o.payload.headers, o.payload.body, TailTexts(o));
  }

  method SerializeHead(o: Object, ghost texts: seq<string>) returns (os: string)
    requires |texts| == 8 && forall i :: 0 <= i < 8 ==> texts[i] == HeadText(o, i)
    ensures os == Flatten(texts)
  {
    os := SerializeNumbers(o, texts);
    os := WriteStr(os, o.payload.reason, "", texts, 5);
    os := WriteStr(os, o.payload.etag, "", texts, 6);
    os := WriteLine(os, NatText(|o.payload.headers|), texts, 7);
    assert texts[..8] == texts;
  }

  method SerializeNumbers(o: Object, ghost texts: seq<string>) returns (os: string)
    requires |texts| == 8 && forall i :: 0 <= i < 8 ==> texts[i] == HeadText(o, i)
    ensures os == Flatten(texts[..5])
  {
    var p := o.payload;
    os := "";
    os := WriteLine(os, "EC2", texts, 0);
    os := WriteLine(os, IntText(p.status), texts, 1);
    os := WriteLine(os, NatText(o.ttlSeconds), texts, 2);
    os := WriteLine(os, NatText(o.swrSeconds), texts, 3);
    os := WriteLine(os, NatText(o.stampMs), texts, 4);
  }

  method SerializeTail(os: string, headers: Headers, body: string, ghost texts: seq<string>) returns (r: string)
    requires |texts| == 2 * |headers| + 1 && texts[2 * |headers|] == StrText(body)
    requires forall i :: 0 <= i < |headers| ==> texts[2 * i] == StrText(headers[i].0)
    requires forall i :: 0 <= i < |headers| ==> texts[2 * i + 1] == StrText(headers[i].1)
    ensures r == os + Flatten(texts)
  {
    r := os;
    for i := 0 to |headers|
      invariant r == os + Flatten(texts[..2 * i])
    {
      r := WriteStr(r, headers[i].0, os, texts, 2 * i);
      r := WriteStr(r, headers[i].1, os, texts, 2 * i + 1);
    }
    r := WriteStr(r, body, os, texts, 2 * |headers|);
    assert texts[..2 * |headers| + 1] == texts;
  }

  // ---------------------------------------------------------------------------------------------
  // Reading. A reader takes the blob and the cursor p, and gives a value and the new cursor; cursor
  // arithmetic is that of size_t.

  datatype Kind = LineKind | NumKind | StrKind

  datatype Value = Value(text: string, number: nat)

  function ReadLine(blob: string, p: nat): (r: Option<(string, nat)>)
    requires p <= |blob|
    ensures r.Some? ==> p < r.value.1 <= |blob|
  {
    match Find(blob, '\n', p)
    case None => None
    case Some(nl) => Some((blob[p..nl], nl + 1))
  }

  function ReadU(blob: string, p: nat): (r: Option<(nat, nat)>)
    requires p <= |blob|
    ensures r.Some? ==> p < r.value.1 <= |blob|
  {
    match ReadLine(blob, p)
    case None => None
    case Some((text, q)) =>
      match Stoull(text)
      case None => None
      case Some(v) => Some((v, q))
  }

  // blob.substr(p, len)
  function Substr(blob: string, p: nat, len: nat): string
    requires p <= |blob|
  {
    if p + len <= |blob| then blob[p..p + len] else blob[p..]
  }

  function ReadStr(blob: string, p: nat): (r: Option<(string, nat)>)
    requires p <= |blob|
    ensures r.Some? ==> r.value.1 <= |blob|
  {
    match ReadU(blob, p)
    case None => None
    case Some((len, q)) => StrAt(blob, q, len)
  }

  function StrAt(blob: string, q: nat, len: nat): (r: Option<(string, nat)>)
    requires q <= |blob|
    ensures r.Some? ==> r.value.1 <= |blob|
  {
    var end := ToU64(q + len);
    if end > |blob| then None
    else if end >= |blob| || blob[end] != '\n' then None
    else Some((Substr(blob, q, len), end + 1))
  }

  function ReadOne(blob: string, p: nat, kind: Kind): Option<(Value, nat)> {
    if p > |blob| then None
    else match kind
      case LineKind => (match ReadLine(blob, p) case None => None case Some((s, q)) => Some((Value(s, 0), q)))
      case NumKind => (match ReadU(blob, p) case None => None case Some((n, q)) => Some((Value("", n), q)))
      case StrKind => (match ReadStr(blob, p) case None => None case Some((s, q)) => Some((Value(s, 0), q)))
  }

  const HEAD: seq<Kind> := [LineKind, NumKind, NumKind, NumKind, NumKind, StrKind, StrKind, NumKind]

  function Strs(n: nat): (kinds: seq<Kind>)
    ensures |kinds| == n && forall i :: 0 <= i < n ==> kinds[i] == StrKind
  {
    seq(n, _ => StrKind)
  }

  // Names and values alternate; a repeated name keeps its last value.
  function Collect(vs: seq<Value>): Headers {
    if |vs| < 2 then [] else Assign(Collect(vs[..|vs| - 2]), vs[|vs| - 2].text, vs[|vs| - 1].text)
  }

  // static_cast<int> of a uint64_t
  function ToInt32(v: nat): int {
    var low := v % 0x1_0000_0000;
    if low >= 0x8000_0000 then low - 0x1_0000_0000 else low
  }

  function Assemble(f: seq<Value>, t: seq<Value>): Object
    requires |f| == 8 && |t| > 0
  {
    Stored(Payload(ToInt32(f[1].number), f[5].text, Collect(t[..|t| - 1]), t[|t| - 1].text, f[6].text),
           f[2].number, f[3].number, f[4].number)
  }

  function ReadTail(read: Reader<Kind, Value>, blob: string, p: nat, n: nat): (r: Option<(seq<Value>, nat)>)
    ensures r.Some? ==> |r.value.0| == 2 * n + 1
  {
    ReadAll(read, blob, p, Strs(2 * n + 1), [])
  }

  // Everything deserialize extracts from what starts at the cursor, and the cursor at its end.
  function ReadFrom(read: Reader<Kind, Value>, blob: string, start: nat): Option<(Object, nat)> {
    match ReadAll(read, blob, start, HEAD, [])
    case None => None
    case Some((f, p)) =>
      if f[0].text != "EC2" then None
      else match ReadTail(read, blob, p, f[7].number)
        case None => None
        case Some((t, end)) => Some((Assemble(f, t), end))
  }

  function ReadBlob(blob: string): Option<(Object, nat)> {
    ReadFrom(ReadOne, blob, 0)
  }

  // The next of the fields that are still to be read.
  method Next(blob: string, p: nat, kind: Kind, ghost kinds: seq<Kind>, ghost acc: seq<Value>)
    returns (ok: bool, v: Value, q: nat)
    requires kinds != [] && kinds[0] == kind
    ensures !ok ==> ReadAll(ReadOne, blob, p, kinds, acc) == None
    ensures ok ==> ReadAll(ReadOne, blob, p, kinds, acc) == ReadAll(ReadOne, blob, q, kinds[1..], acc + [v])
  {
    match ReadOne(blob, p, kind) {
      case None => ok, v, q := false, Value("", 0), p;
      case Some((w, r)) => ok, v, q := true, w, r;
    }
  }

  method Deserialize(blob: string) returns (ok: bool, out: Option<Object>)
    ensures ok == ReadBlob(blob).Some?
    ensures out == (if ok then Some(ReadBlob(blob).value.0) else None)
  {
    ok, out := false, None;
    var fixed, f, p := DeserializeHead(blob);
    if !fixed { return; }
    var read, headers, body := DeserializeTail(blob, p, f[7].number);
    if !read { return; }
    ok := true;
    out := Some(Stored(Payload(ToInt32(f[1].number), f[5].text, headers, body, f[6].text),
                       f[2].number, f[3].number, f[4].number));
  }

  method DeserializeHead(blob: string) returns (ok: bool, f: seq<Value>, p: nat)
    ensures ok <==>
              && ReadAll(ReadOne, blob, 0, HEAD, []).Some?
              && ReadAll(ReadOne, blob, 0, HEAD, []).value.0[0].text == "EC2"
    ensures ok ==> ReadAll(ReadOne, blob, 0, HEAD, []) == Some((f, p))
  {
    f, p := [], 0;
    var v;
    ok, v, p := Next(blob, p, LineKind, HEAD, f);
    if !ok { return; }
    f := f + [v];
    if v.text != "EC2" {
      ok := false;
      return;
    }
    ok, v, p := Next(blob, p, NumKind, HEAD[1..], f);
    if !ok { return; }
    f := f + [v];
    ok, v, p := Next(blob, p, NumKind, HEAD[2..], f);
    if !ok { return; }
    f := f + [v];
    ok, v, p := Next(blob, p, NumKind, HEAD[3..], f);
    if !ok { return; }
    f := f + [v];
    ok, v, p := Next(blob, p, NumKind, HEAD[4..], f);
    if !ok { return; }
    f := f + [v];
    ok, v, p := Next(blob, p, StrKind, HEAD[5..], f);
    if !ok { return; }
    f := f + [v];
    ok, v, p := Next(blob, p, StrKind, HEAD[6..], f);
    if !ok { return; }
    f := f + [v];
    ok, v, p := Next(blob, p, NumKind, HEAD[7..], f);
    if !ok { return; }
    f := f + [v];
  }

  // One turn of the header loop.
  method NextHeader(blob: string, p: nat, headers: Headers, ghost kinds: seq<Kind>, ghost t: seq<Value>)
    returns (ok: bool, q: nat, headers': Headers, ghost t': seq<Value>)
    requires |kinds| >= 2 && kinds[0] == kinds[1] == StrKind && headers == Collect(t)
    ensures !ok ==> ReadAll(ReadOne, blob, p, kinds, t) == None
    ensures ok ==> ReadAll(ReadOne, blob, p, kinds, t) == ReadAll(ReadOne, blob, q, kinds[2..], t') && |t'| == |t| + 2
    ensures ok ==> headers' == Collect(t')
  {
    headers', t' := headers, t;
    var k, v;
    ok, k, q := Next(blob, p, StrKind, kinds, t);
    if !ok { return; }
    ok, v, q := Next(blob, q, StrKind, kinds[1..], t + [k]);
    if !ok { return; }
    headers' := Assign(headers, k.text, v.text);
    t' := t + [k] + [v];
    assert t'[..|t|] == t && kinds[1..][1..] == kinds[2..];
  }

  method DeserializeTail(blob: string, start: nat, n: nat) returns (ok: bool, headers: Headers, body: string)
    ensures ok == ReadTail(ReadOne, blob, start, n).Some?
    ensures ok ==> var t := ReadTail(ReadOne, blob, start, n).value.0;
                   headers == Collect(t[..2 * n]) && body == t[2 * n].text
  {
    headers, body := [], "";
    ghost var t := [];
    ghost var kinds := Strs(2 * n + 1);
    var p: nat, i: nat := start, 0;
    while i < n
      invariant i <= n && |t| == 2 * i && headers == Collect(t)
      invariant |kinds| == 2 * (n - i) + 1 && forall j :: 0 <= j < |kinds| ==> kinds[j] == StrKind
      invariant ReadAll(ReadOne, blob, start, Strs(2 * n + 1), []) == ReadAll(ReadOne, blob, p, kinds, t)
    {
      ok, p, headers, t := NextHeader(blob, p, headers, kinds, t);
      if !ok { return; }
      kinds := kinds[2..];
      i := i + 1;
    }
    var v;
    ok, v, p := Next(blob, p, StrKind, kinds, t);
    if !ok { return; }
    assert (t + [v])[..2 * n] == t;
    body := v.text;
  }


  // ---------------------------------------------------------------------------------------------
  // Each kind of field is read back where it stands, and refused where it is cut short.

  lemma LineRead(b: string, p: nat, s: string)
    requires p + |s| + 1 <= |b| && b[p..p + |s| + 1] == s + "\n" && '\n' !in s
    ensures ReadLine(b, p) == Some((s, p + |s| + 1))
  {
    var all := s + "\n";
    assert forall i :: 0 <= i < |all| ==> b[p + i] == all[i];
    assert b[p + |s|] == all[|s|];
    assert b[p..p + |s|] == all[..|s|];
    FindAfter(b, '\n', p, s);
  }

  lemma LineCut(b: string, p: nat, s: string)
    requires p <= |b| && b[p..] < s + "\n" && '\n' !in s
    ensures ReadLine(b, p) == None
  {
    forall j | p <= j < |b| ensures b[j] != '\n' {
      assert b[j] == b[p..][j - p] == (s + "\n")[j - p] == s[j - p];
    }
    FindNone(b, '\n', p);
  }

  lemma LineCodes(s: string)
    requires '\n' !in s
    ensures Codes(ReadOne, LineText(s), LineKind, Value(s, 0))
  {
    var t := LineText(s);
    forall b: string, p: nat | p + |t| <= |b| < U64 && b[p..p + |t|] == t
      ensures ReadOne(b, p, LineKind) == Some((Value(s, 0), p + |t|)) {
      LineRead(b, p, s);
    }
    forall b: string, p: nat | p <= |b| && p + |t| < U64 && b[p..] < t ensures ReadOne(b, p, LineKind) == None {
      LineCut(b, p, s);
    }
  }

  lemma NumCodes(s: string, n: nat)
    requires '\n' !in s && Stoull(s) == Some(n)
    ensures Codes(ReadOne, LineText(s), NumKind, Value("", n))
  {
    var t := LineText(s);
    forall b: string, p: nat | p + |t| <= |b| < U64 && b[p..p + |t|] == t
      ensures ReadOne(b, p, NumKind) == Some((Value("", n), p + |t|)) {
      LineRead(b, p, s);
    }
    forall b: string, p: nat | p <= |b| && p + |t| < U64 && b[p..] < t ensures ReadOne(b, p, NumKind) == None {
      LineCut(b, p, s);
    }
  }

  lemma NatPlain(n: nat)
    requires n < U64
    ensures '\n' !in NatText(n) && Stoull(NatText(n)) == Some(n)
  {
    StoullOfNat(n);
    IntTextPlain(n);
    assert IntText(n) == NatText(n);
  }

  lemma NatCodes(n: nat)
    requires n < U64
    ensures Codes(ReadOne, LineText(NatText(n)), NumKind, Value("", n))
  {
    NatPlain(n);
    NumCodes(NatText(n), n);
  }

  // A negative status is written with its sign and comes back through two wrap-arounds.
  lemma StatusText(status: int)
    requires -0x8000_0000 <= status < 0x8000_0000
    ensures '\n' !in IntText(status) && Stoull(IntText(status)) == Some(ToU64(status))
  {
    IntTextPlain(status);
    if status < 0 {
      StoullOfNegative(-status);
      assert ToU64(status) == U64 + status;
    } else {
      StoullOfNat(status);
    }
  }

  lemma StatusValue(status: int)
    requires -0x8000_0000 <= status < 0x8000_0000
    ensures ToInt32(ToU64(status)) == status
  {
    if status < 0 {
      assert ToU64(status) == U64 + status;
    }
  }

  lemma StatusCodes(status: int)
    requires -0x8000_0000 <= status < 0x8000_0000
    ensures Codes(ReadOne, LineText(IntText(status)), NumKind, Value("", ToU64(status)))
  {
    StatusText(status);
    NumCodes(IntText(status), ToU64(status));
  }

  // A line with the length, the bytes, and a line end: by position.
  lemma StrParts(b: string, p: nat, count: string, s: string)
    requires p + |count| + 1 + |s| + 1 <= |b|
    requires b[p..p + |count| + 1 + |s| + 1] == count + "\n" + s + "\n"
    ensures var q := p + |count| + 1;
            b[p..q] == count + "\n" && b[q..q + |s|] == s && b[q + |s|] == '\n'
  {
    var all := count + "\n" + s + "\n";
    var q := p + |count| + 1;
    assert forall i :: 0 <= i < |all| ==> b[p + i] == all[i];
    assert b[p..q] == all[..|count| + 1];
    assert b[q..q + |s|] == all[|count| + 1..|count| + 1 + |s|];
    assert b[q + |s|] == all[|count| + 1 + |s|];
  }

  lemma StrRead(b: string, p: nat, count: string, s: string)
    requires p + |count| + 1 + |s| + 1 <= |b| < U64
    requires b[p..p + |count| + 1 + |s| + 1] == count + "\n" + s + "\n"
    requires '\n' !in count && Stoull(count) == Some(|s|)
    ensures ReadStr(b, p) == Some((s, p + |count| + 1 + |s| + 1))
  {
    StrParts(b, p, count, s);
    LineRead(b, p, count);
    StrAtRead(b, p + |count| + 1, s);
  }

  lemma StrAtRead(b: string, q: nat, s: string)
    requires q + |s| < |b| < U64 && b[q..q + |s|] == s && b[q + |s|] == '\n'
    ensures StrAt(b, q, |s|) == Some((s, q + |s| + 1))
  {
  }

  lemma StrCut(b: string, p: nat, count: string, s: string)
    requires p <= |b| && p + |count| + 1 + |s| + 1 < U64
    requires b[p..] < count + "\n" + s + "\n"
    requires '\n' !in count && Stoull(count) == Some(|s|)
    ensures ReadStr(b, p) == None
  {
    var all := count + "\n" + s + "\n";
    if |b| - p <= |count| {
      assert b[p..] == all[..|b| - p] == (count + "\n")[..|b| - p];
      LineCut(b, p, count);
    } else {
      var q := p + |count| + 1;
      assert forall i :: 0 <= i < |b| - p ==> b[p + i] == all[i];
      assert b[p..q] == all[..|count| + 1] == count + "\n";
      LineRead(b, p, count);
      assert |b| - p < |all| && q + |s| >= |b|;
    }
  }

  lemma StrCodes(s: string)
    requires |s| < U64
    ensures Codes(ReadOne, StrText(s), StrKind, Value(s, 0))
  {
    var t, count := StrText(s), NatText(|s|);
    NatPlain(|s|);
    StrCodesWith(t, count, s);
  }

  lemma StrCodesWith(t: string, count: string, s: string)
    requires t == count + "\n" + s + "\n" && '\n' !in count && Stoull(count) == Some(|s|)
    ensures Codes(ReadOne, t, StrKind, Value(s, 0))
  {
    forall b: string, p: nat | p + |t| <= |b| < U64 && b[p..p + |t|] == t
      ensures ReadOne(b, p, StrKind) == Some((Value(s, 0), p + |t|)) {
      StrRead(b, p, count, s);
    }
    forall b: string, p: nat | p <= |b| && p + |t| < U64 && b[p..] < t ensures ReadOne(b, p, StrKind) == None {
      StrCut(b, p, count, s);
    }
  }

  // ---------------------------------------------------------------------------------------------
  // The whole blob.

  // What an entry can hold: status is an int, the counts are uint64_t, the headers are a std::map.
  ghost predicate Writable(o: Object) {
    && -0x8000_0000 <= o.payload.status < 0x8000_0000
    && o.ttlSeconds < U64 && o.swrSeconds < U64 && o.stampMs < U64
    && Ordered(o.payload.headers)
    && |o.payload.reason| < U64 && |o.payload.etag| < U64 && |o.payload.headers| < U64
    && Short(TailStrings(o.payload.headers, o.payload.body))
  }

  predicate Short(ss: seq<string>) {
    forall i :: 0 <= i < |ss| ==> |ss[i]| < U64
  }

  function HeadValue(o: Object, i: nat): Value {
    var p := o.payload;
    if i == 0 then Value("EC2", 0)
    else if i == 1 then Value("", ToU64(p.status))
    else if i == 2 then Value("", o.ttlSeconds)
    else if i == 3 then Value("", o.swrSeconds)
    else if i == 4 then Value("", o.stampMs)
    else if i == 5 then Value(p.reason, 0)
    else if i == 6 then Value(p.etag, 0)
    else Value("", |p.headers|)
  }

  function HeadValues(o: Object): seq<Value> {
    seq(8, i requires 0 <= i < 8 => HeadValue(o, i))
  }

  function StrValues(ss: seq<string>): seq<Value> {
    seq(|ss|, i requires 0 <= i < |ss| => Value(ss[i], 0))
  }

  lemma HeadCode(o: Object, i: nat)
    requires Writable(o) && i < 8
    ensures Codes(ReadOne, HeadText(o, i), HEAD[i], HeadValue(o, i))
  {
    var p := o.payload;
    if i == 0 {
      LineCodes("EC2");
    } else if i == 1 {
      StatusCodes(p.status);
    } else if i == 2 {
      NatCodes(o.ttlSeconds);
    } else if i == 3 {
      NatCodes(o.swrSeconds);
    } else if i == 4 {
      NatCodes(o.stampMs);
    } else if i == 5 {
      StrCodes(p.reason);
    } else if i == 6 {
      StrCodes(p.etag);
    } else {
      NatCodes(|p.headers|);
    }
  }

  lemma HeadCodes(o: Object)
    requires Writable(o)
    ensures AllCode(ReadOne, HeadTexts(o), HEAD, HeadValues(o))
  {
    forall i | 0 <= i < 8 ensures Codes(ReadOne, HeadTexts(o)[i], HEAD[i], HeadValues(o)[i]) {
      HeadCode(o, i);
    }
  }

  lemma StrsCode(ss: seq<string>)
    requires Short(ss)
    ensures AllCode(ReadOne, StrTexts(ss), Strs(|ss|), StrValues(ss))
  {
    forall i | 0 <= i < |ss| ensures Codes(ReadOne, StrTexts(ss)[i], Strs(|ss|)[i], StrValues(ss)[i]) {
      StrCodes(ss[i]);
    }
  }

  lemma {:induction false} CollectsHeaders(vs: seq<Value>, h: Headers)
    requires Ordered(h) && |vs| == 2 * |h|
    requires forall i :: 0 <= i < |h| ==> vs[2 * i].text == h[i].0
    requires forall i :: 0 <= i < |h| ==> vs[2 * i + 1].text == h[i].1
    ensures Collect(vs) == h
    decreases |h|
  {
    if h != [] {
      var n := |h| - 1;
      CollectsHeaders(vs[..2 * n], h[..n]);
      assert h == h[..n] + [(h[n].0, h[n].1)];
      AssignLast(h[..n], h[n].0, h[n].1);
    }
  }

  function TailValues(o: Object): (vs: seq<Value>)
    ensures |vs| == 2 * |o.payload.headers| + 1
  {
    StrValues(TailStrings(o.payload.headers, o.payload.body))
  }

  lemma TailBack(o: Object)
    requires Ordered(o.payload.headers)
    ensures var t := TailValues(o);
            Collect(t[..|t| - 1]) == o.payload.headers && t[|t| - 1].text == o.payload.body
  {
    var n := |o.payload.headers|;
    var vs := TailValues(o)[..2 * n];
    assert forall i :: 0 <= i < n ==> vs[2 * i].text == o.payload.headers[i].0;
    assert forall i :: 0 <= i < n ==> vs[2 * i + 1].text == o.payload.headers[i].1;
    CollectsHeaders(vs, o.payload.headers);
  }

  lemma HeadBack(o: Object)
    ensures var f := HeadValues(o);
            && f[1].number == ToU64(o.payload.status) && f[2].number == o.ttlSeconds && f[3].number == o.swrSeconds
            && f[4].number == o.stampMs && f[5].text == o.payload.reason && f[6].text == o.payload.etag
  {
  }

  lemma AssembleBack(o: Object)
    requires Writable(o)
    ensures Assemble(HeadValues(o), TailValues(o)) == o
  {
    StatusValue(o.payload.status);
    HeadBack(o);
    TailBack(o);
  }

  // A blob in two parts: the head fields, of which the last says how many headers there are, and the strings.
  datatype Draft = Draft(headTexts: seq<string>, headValues: seq<Value>, tailTexts: seq<string>, tailValues: seq<Value>)

  function DraftText(d: Draft): string {
    Flatten(d.headTexts) + Flatten(d.tailTexts)
  }

  function DraftOf(o: Object): Draft {
    Draft(HeadTexts(o), HeadValues(o), TailTexts(o), TailValues(o))
  }

  // The reader understands every field of the draft.
  ghost predicate Understood(read: Reader<Kind, Value>, d: Draft) {
    && |d.headValues| == 8 && d.headValues[0].text == "EC2"
    && AllCode(read, d.headTexts, HEAD, d.headValues)
    && AllCode(read, d.tailTexts, Strs(2 * d.headValues[7].number + 1), d.tailValues)
  }

  lemma ObjectUnderstood(o: Object)
    requires Writable(o)
    ensures Understood(ReadOne, DraftOf(o))
  {
    HeadCodes(o);
    HeadMarks(o);
    StrsCode(TailStrings(o.payload.headers, o.payload.body));
  }

  lemma HeadMarks(o: Object)
    ensures HeadValues(o)[0].text == "EC2" && HeadValues(o)[7].number == |o.payload.headers|
  {
  }

  lemma HeadRead(read: Reader<Kind, Value>, blob: string, p: nat, d: Draft, head: string, rest: string)
    requires Understood(read, d) && head == Flatten(d.headTexts)
    requires p <= |blob| < U64 && blob[p..] == head + rest
    ensures ReadAll(read, blob, p, HEAD, []) == Some((d.headValues, p + |head|))
  {
    AllRead(read, blob, p, d.headTexts, HEAD, d.headValues, head, rest);
  }

  lemma TailRead(read: Reader<Kind, Value>, blob: string, p: nat, d: Draft, tail: string, rest: string)
    requires Understood(read, d) && tail == Flatten(d.tailTexts)
    requires p <= |blob| < U64 && blob[p..] == tail + rest
    ensures ReadTail(read, blob, p, d.headValues[7].number) == Some((d.tailValues, p + |tail|))
  {
    AllRead(read, blob, p, d.tailTexts, Strs(2 * d.headValues[7].number + 1), d.tailValues, tail, rest);
  }

  lemma PartsRead(read: Reader<Kind, Value>, blob: string, p: nat, f: seq<Value>, q: nat, t: seq<Value>, end: nat)
    requires ReadAll(read, blob, p, HEAD, []) == Some((f, q))
    requires |f| == 8 && f[0].text == "EC2" && ReadTail(read, blob, q, f[7].number) == Some((t, end))
    ensures ReadFrom(read, blob, p) == Some((Assemble(f, t), end))
  {
  }

  lemma DraftRead(read: Reader<Kind, Value>, blob: string, p: nat, d: Draft, head: string, tail: string, suffix: string)
    requires Understood(read, d) && head == Flatten(d.headTexts) && tail == Flatten(d.tailTexts)
    requires p + |head| <= |blob| < U64
    requires blob[p..] == head + (tail + suffix) && blob[p + |head|..] == tail + suffix
    ensures ReadFrom(read, blob, p) == Some((Assemble(d.headValues, d.tailValues), p + |head| + |tail|))
  {
    HeadRead(read, blob, p, d, head, tail + suffix);
    TailRead(read, blob, p + |head|, d, tail, suffix);
    PartsRead(read, blob, p, d.headValues, p + |head|, d.tailValues, p + |head| + |tail|);
  }

  lemma DraftReadBack(read: Reader<Kind, Value>, d: Draft, suffix: string)
    requires Understood(read, d) && |DraftText(d) + suffix| < U64
    ensures ReadFrom(read, DraftText(d) + suffix, 0) == Some((Assemble(d.headValues, d.tailValues), |DraftText(d)|))
  {
    var head, tail := Flatten(d.headTexts), Flatten(d.tailTexts);
    WholeText(head, tail, suffix);
    DraftRead(read, DraftText(d) + suffix, 0, d, head, tail, suffix);
  }

  lemma DraftCut(read: Reader<Kind, Value>, blob: string, p: nat, d: Draft, head: string, tail: string)
    requires Understood(read, d) && head == Flatten(d.headTexts) && tail == Flatten(d.tailTexts)
    requires p <= |blob| && p + |head| + |tail| < U64 && blob[p..] < head + tail
    ensures ReadFrom(read, blob, p) == None
  {
    FirstCut(blob, p, head, tail);
    if |blob| - p < |head| {
      FieldsCut(read, blob, p, d.headTexts, HEAD, d.headValues, []);
    } else {
      var q := p + |head|;
      assert blob[p..] == head + blob[q..];
      HeadRead(read, blob, p, d, head, blob[q..]);
      FieldsCut(read, blob, q, d.tailTexts, Strs(2 * d.headValues[7].number + 1), d.tailValues, []);
    }
  }

  lemma DraftRefused(read: Reader<Kind, Value>, d: Draft, n: nat)
    requires Understood(read, d) && n < |DraftText(d)| < U64
    ensures ReadFrom(read, DraftText(d)[..n], 0) == None
  {
    var blob := DraftText(d)[..n];
    assert blob[0..] == blob;
    DraftCut(read, blob, 0, d, Flatten(d.headTexts), Flatten(d.tailTexts));
  }

  // Whatever follows the blob, reading it gives back every field, and stops exactly at its end.
  lemma RoundTrip(o: Object, suffix: string)
    requires Writable(o) && |BlobText(o) + suffix| < U64
    ensures ReadBlob(BlobText(o) + suffix) == Some((o, |BlobText(o)|))
  {
    ObjectUnderstood(o);
    DraftReadBack(ReadOne, DraftOf(o), suffix);
    AssembleBack(o);
  }

  // No proper prefix of a blob is accepted.
  lemma PrefixRejected(o: Object, n: nat)
    requires Writable(o) && n < |BlobText(o)| < U64
    ensures ReadBlob(BlobText(o)[..n]) == None
  {
    ObjectUnderstood(o);
    DraftRefused(ReadOne, DraftOf(o), n);
  }
}
