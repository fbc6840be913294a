// A head the parser accepts although its message length wraps around.
module WrappingHead {
  // stoull takes a minus sign and negates modulo 2^64. With a byte behind the head, the outcome depends on where the
  // stream is cut.

  import opened Wrappers
  import opened CacheEntries
  import opened Strings
  import opened Numbers
  import opened HttpHeaders
  import opened HttpParser
  import opened HttpStreams

  const LINE := "G / H"
  const NAME := "Content-Length"
  const FIELD := NAME + ":-1"
  const BLOCK := LINE + "\r\n" + FIELD
  const NEGATIVE := BLOCK + HEAD_END

  lemma BlockParts()
    ensures |BLOCK| == 24 && BLOCK[..5] == LINE && BLOCK[5] == '\r' && BLOCK[6] == '\n' && BLOCK[7..] == FIELD
    ensures BLOCK[0..6] == LINE + "\r"
    ensures '\r' !in LINE && '\r' !in FIELD && '\n' !in LINE && '\n' !in FIELD && ':' !in NAME
  {
  }

  lemma EndIsAt24()
    ensures FindStr(NEGATIVE, HEAD_END, 0) == Some(24)
  {
    BlockParts();
    var u := NEGATIVE;
    assert u[..24] == BLOCK && u[24..28] == HEAD_END;
    forall p: nat | p < 24 ensures !OccursAt(u, HEAD_END, p) {
      if p < 5 {
        assert u[p] == BLOCK[p] == BLOCK[..5][p] == LINE[p];
      } else if 7 <= p {
        assert u[p] == BLOCK[p] == BLOCK[7..][p - 7] == FIELD[p - 7];
      } else if p == 6 {
        assert u[p] == BLOCK[p];
      } else {
        assert u[p + 2] == BLOCK[7] == FIELD[0];
      }
      assert u[p..p + 4][0] == u[p] && u[p..p + 4][2] == u[p + 2];
    }
    FindStrIs(u, HEAD_END, 0, 24);
  }

  lemma LineBreaks()
    ensures GetLine(BLOCK, 0) == Some((LINE + "\r", 7)) && GetLine(BLOCK, 7) == Some((FIELD, 24))
    ensures GetLine(BLOCK, 24) == None
  {
    BlockParts();
    forall j | 0 <= j < 6 ensures BLOCK[j] != '\n' {
      if j < 5 {
        assert BLOCK[j] == BLOCK[..5][j] == LINE[j];
      }
    }
    FindIs(BLOCK, '\n', 0, 6);
    forall j | 7 <= j < 24 ensures BLOCK[j] != '\n' {
      assert BLOCK[j] == BLOCK[7..][j - 7] == FIELD[j - 7];
    }
    FindNone(BLOCK, '\n', 7);
  }

  lemma Words()
    ensures ChopReturn(LINE + "\r") == LINE && RequestLine(LINE) == Some(("G", "/", "H"))
  {
    assert (LINE + "\r")[..5] == LINE;
    assert WordEnd("G / H", 0) == 1 && "G / H"[..1] == "G" && "G / H"[1..] == " / H";
    assert NextWord("G / H") == Some(("G", " / H"));
    assert " / H"[1..] == "/ H" && SkipSpace(" / H") == "/ H";
    assert WordEnd("/ H", 0) == 1 && "/ H"[..1] == "/" && "/ H"[1..] == " H";
    assert NextWord(" / H") == Some(("/", " H"));
    assert " H"[1..] == "H" && SkipSpace(" H") == "H";
    assert WordEnd("H", 0) == 1 && "H"[..1] == "H" && "H"[1..] == "";
    assert NextWord(" H") == Some(("H", ""));
  }

  lemma Colon()
    ensures Find(FIELD, ':', 0) == Some(14) && FIELD[..14] == NAME && FIELD[15..] == "-1" && FIELD[|FIELD| - 1] == '1'
  {
    BlockParts();
    assert FIELD[..14] == NAME && FIELD[14] == ':' && FIELD[15..] == "-1" && FIELD[16] == '1';
    forall j | 0 <= j < 14 ensures FIELD[j] != ':' {
      assert FIELD[j] == FIELD[..14][j] == NAME[j];
    }
    FindIs(FIELD, ':', 0, 14);
  }

  lemma Untrimmed()
    ensures Trim(NAME) == NAME && Trim("-1") == "-1"
  {
    assert Trim(NAME) == NAME[0..14] == NAME;
    assert Trim("-1") == "-1"[0..2] == "-1";
  }

  lemma Field()
    ensures ChopReturn(FIELD) == FIELD && AddHeader([], FIELD) == [(NAME, "-1")]
  {
    Colon();
    Untrimmed();
  }

  lemma OtherLength(a: string, b: string)
    requires |a| != |b|
    ensures !SameName(a, b)
  {
    assert |Lower(a)| == |a| && |Lower(b)| == |b|;
  }

  lemma OneHeader(name: string, value: string, other: string)
    ensures HeaderOf([(name, value)], other) == (if SameName(name, other) then Some(value) else None)
  {
    assert [(name, value)][1..] == [];
  }

  lemma MinusOne()
    ensures Stoull("-1") == Some(U64 - 1)
  {
    assert NatText(1) == "1" && "-" + NatText(1) == "-1";
    StoullOfNegative(1);
  }

  // A single header that is the content length.
  lemma LengthOf(h: Headers, name: string, value: string, transfer: string)
    requires h == [(name, value)] && name == NAME && transfer == "Transfer-Encoding"
    ensures BodyLength(h) == Stoull(value)
  {
    OneHeader(name, value, transfer);
    OneHeader(name, value, name);
    OtherLength(name, transfer);
  }

  // A head of a request line and one header line.
  lemma OneLineHead(block: string, line: string, p: nat, field: string, verb: string, target: string, version: string,
                    h: Headers, len: nat)
    requires GetLine(block, 0) == Some((line, p)) && GetLine(block, p) == Some((field, |block|))
    requires RequestLine(ChopReturn(line)) == Some((verb, target, version))
    requires ChopReturn(field) == field != "" && AddHeader([], field) == h && BodyLength(h) == Some(len)
    ensures ParseHead(block).Some? && ParseHead(block).value.1 == len
  {
    assert HeaderLines(block, |block|, h) == h;
    assert HeaderLines(block, p, []) == HeaderLines(block, |block|, AddHeader([], field));
  }

  lemma GoodHead(u: string, h: nat)
    requires FindStr(u, HEAD_END, 0) == Some(h) && ParseHead(u[..h]).Some?
    ensures HeadOf(u).Good? && HeadOf(u).size == h + 4 && HeadOf(u).length == ParseHead(u[..h]).value.1
  {
  }

  lemma NegativeLength()
    ensures HeadOf(NEGATIVE).Good? && HeadOf(NEGATIVE).size == 28 && HeadOf(NEGATIVE).length == U64 - 1
  {
    LineBreaks();
    Words();
    Field();
    LengthOf([(NAME, "-1")], NAME, "-1", "Transfer-Encoding");
    MinusOne();
    OneLineHead(BLOCK, LINE + "\r", 7, FIELD, "G", "/", "H", [(NAME, "-1")], U64 - 1);
    EndIsAt24();
    assert NEGATIVE[..24] == BLOCK;
    GoodHead(NEGATIVE, 24);
  }

  // Any stream that goes on behind a head with such a length is unsteady.
  lemma NotSteady(head: Heads, keep: Keeps, u: string)
    requires head(u).Good? && head(u).size < |u| && head(u).size + head(u).length >= U64
    ensures !Steady(head, keep, u)
  {
  }

  // One byte behind that head is enough.
  lemma OutcomeDependsOnTheCut(rest: string)
    requires rest != ""
    ensures !Independent(HeadOf, KeepAlive, NEGATIVE + rest)
  {
    var u := NEGATIVE + rest;
    NegativeLength();
    HeadStays(NEGATIVE, rest);
    NotSteady(HeadOf, KeepAlive, u);
    ChunkingIndependence(u);
  }

  lemma HeadStays(u: string, rest: string)
    requires HeadOf(u).Good?
    ensures HeadOf(u + rest) == HeadOf(u)
  {
    assert (u + rest)[..|u|] == u;
    HeadOfPrefix(u + rest, |u|);
  }
}
