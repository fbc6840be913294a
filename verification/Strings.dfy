// The std::string operations the code relies on. A string is a sequence of bytes; each byte is a char.
module Strings {
  import opened Wrappers

  // s.find(c, from)
  function Find(s: string, c: char, from: nat): (r: Option<nat>)
    requires from <= |s|
    ensures r.Some? ==> from <= r.value < |s| && s[r.value] == c
    ensures r.Some? ==> forall j :: from <= j < r.value ==> s[j] != c
    ensures r.None? ==> forall j :: from <= j < |s| ==> s[j] != c
    decreases |s| - from
  {
    if from == |s| then None
    else if s[from] == c then Some(from)
    else Find(s, c, from + 1)
  }

  // The first occurrence is the one Find returns.
  lemma FindIs(s: string, c: char, from: nat, at: nat)
    requires from <= at < |s| && s[at] == c
    requires forall j :: from <= j < at ==> s[j] != c
    ensures Find(s, c, from) == Some(at)
  {
    var r := Find(s, c, from);
  }

  lemma FindNone(s: string, c: char, from: nat)
    requires from <= |s|
    requires forall j :: from <= j < |s| ==> s[j] != c
    ensures Find(s, c, from) == None
  {
    var r := Find(s, c, from);
  }

  // A piece without c, followed by c.
  lemma FindAfter(s: string, c: char, from: nat, piece: string)
    requires from + |piece| < |s| && s[from..from + |piece|] == piece && c !in piece
    requires s[from + |piece|] == c
    ensures Find(s, c, from) == Some(from + |piece|)
  {
    forall j | from <= j < from + |piece| ensures s[j] != c {
      assert s[j] == s[from..from + |piece|][j - from] == piece[j - from];
    }
    FindIs(s, c, from, from + |piece|);
  }

  // Cutting a concatenation of three strings.
  lemma Middle(x: string, y: string, z: string)
    ensures var s := x + y + z;
            s[..|x|] == x && s[|x|..|x| + |y|] == y && s[|x| + |y|..] == z
  {
  }

  // s occurs in t at position p.
  predicate OccursAt(t: string, s: string, p: nat) {
    p + |s| <= |t| && t[p..p + |s|] == s
  }

  // t.find(s, from)
  function FindStr(t: string, s: string, from: nat): (r: Option<nat>)
    ensures r.Some? ==> from <= r.value && OccursAt(t, s, r.value)
    ensures r.Some? ==> forall p :: from <= p < r.value ==> !OccursAt(t, s, p)
    ensures r.None? ==> forall p :: from <= p ==> !OccursAt(t, s, p)
    decreases |t| - from
  {
    if from + |s| > |t| then None
    else if t[from..from + |s|] == s then Some(from)
    else FindStr(t, s, from + 1)
  }

  lemma {:induction false} FindStrIs(t: string, s: string, from: nat, at: nat)
    requires from <= at && OccursAt(t, s, at)
    requires forall p :: from <= p < at ==> !OccursAt(t, s, p)
    ensures FindStr(t, s, from) == Some(at)
    decreases at - from
  {
    if from < at {
      assert !OccursAt(t, s, from);
      FindStrIs(t, s, from + 1, at);
    }
  }

  lemma OccursInPrefix(t: string, n: nat, s: string, p: nat)
    requires n <= |t|
    ensures OccursAt(t[..n], s, p) <==> OccursAt(t, s, p) && p + |s| <= n
  {
    if p + |s| <= n {
      assert t[..n][p..p + |s|] == t[p..p + |s|];
    }
  }

  // Searching a prefix finds what searching the whole text finds, if that lies within the prefix.
  lemma FindStrInPrefix(t: string, n: nat, s: string)
    requires n <= |t|
    ensures var r := FindStr(t, s, 0);
            FindStr(t[..n], s, 0) == (if r.Some? && r.value + |s| <= n then r else None)
  {
    var r, r' := FindStr(t, s, 0), FindStr(t[..n], s, 0);
    if r'.Some? {
      OccursInPrefix(t, n, s, r'.value);
      forall p: nat | p < r'.value ensures !OccursAt(t, s, p) {
        OccursInPrefix(t, n, s, p);
      }
      FindStrIs(t, s, 0, r'.value);
    } else if r.Some? {
      OccursInPrefix(t, n, s, r.value);
    }
  }

  // s.compare(0, p.size(), p) == 0, and TypeScript's s.startsWith(p)
  predicate StartsWith(s: string, p: string) {
    |p| <= |s| && s[..|p|] == p
  }

  // std::tolower in the C locale.
  function LowerChar(c: char): char {
    if 'A' <= c <= 'Z' then c - 'A' + 'a' else c
  }

  function Lower(s: string): (r: string)
    ensures |r| == |s|
    ensures forall i :: 0 <= i < |s| ==> r[i] == LowerChar(s[i])
  {
    if s == "" then "" else [LowerChar(s[0])] + Lower(s[1..])
  }

  predicate IsDigit(c: char) {
    '0' <= c <= '9'
  }

  // The order of std::string: lexicographic, by byte.
  predicate Below(a: string, b: string) {
    |b| > 0 && (|a| == 0 || a[0] < b[0] || (a[0] == b[0] && Below(a[1..], b[1..])))
  }

  lemma {:induction false} BelowTotal(a: string, b: string)
    ensures a == b || Below(a, b) || Below(b, a)
    ensures !(a == b && Below(a, b)) && !(Below(a, b) && Below(b, a))
  {
    if |a| > 0 && |b| > 0 && a[0] == b[0] {
      BelowTotal(a[1..], b[1..]);
      assert a == [a[0]] + a[1..] && b == [b[0]] + b[1..];
    }
  }

  lemma {:induction false} BelowTransitive(a: string, b: string, c: string)
    requires Below(a, b) && Below(b, c)
    ensures Below(a, c)
  {
    if |a| > 0 && a[0] == b[0] && b[0] == c[0] {
      BelowTransitive(a[1..], b[1..], c[1..]);
    }
  }
}
