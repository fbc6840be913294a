// Which operations keep the inclusion property of the LRU cache.
module InclusionLimits {
  // Exactly those that give every key one size and depend neither on the clock nor on a get that is not followed by a
  // put.

  import opened CacheEntries
  import opened HttpHeaders
  import opened LruLists
  import opened LruLaws

  // Which operations are permitted: entries of these sizes under these keys, sweeps, and gets that store nothing after
  // a miss. Erasing and purging always are.
  datatype Rules = Rules(sizes: (string, nat) -> bool, sweeps: bool, gets: bool)

  predicate Permitted(rules: Rules, op: Op) {
    match op
    case Access(key, entry) => rules.sizes(key, SizeBytes(entry.payload))
    case Put(key, entry) => rules.sizes(key, SizeBytes(entry.payload))
    case Get(_) => rules.gets
    case Erase(_) => true
    case Purge(_) => true
    case Sweep(_) => rules.sweeps
  }

  ghost predicate AllPermitted(rules: Rules, ops: seq<Op>) {
    forall i :: 0 <= i < |ops| ==> Permitted(rules, ops[i])
  }

  ghost predicate OneSize(rules: Rules) {
    forall k, b1, b2 :: rules.sizes(k, b1) && rules.sizes(k, b2) ==> b1 == b2
  }

  // Four keys, each of which may have both sizes.
  ghost predicate Four(rules: Rules, ks: seq<string>, b1: nat, b2: nat) {
    && |ks| == 4
    && (forall i, j :: 0 <= i < j < 4 ==> ks[i] != ks[j])
    && forall i :: 0 <= i < 4 ==> rules.sizes(ks[i], b1) && rules.sizes(ks[i], b2)
  }

  // Something may be stored, every size is one that entries have, and no key is alone with its sizes.
  ghost predicate Plenty(rules: Rules) {
    && (exists k, b :: rules.sizes(k, b))
    && (forall k, b :: rules.sizes(k, b) ==> b >= 64)
    && forall k, b1, b2 :: rules.sizes(k, b1) && rules.sizes(k, b2) ==> exists ks :: Four(rules, ks, b1, b2)
  }

  // The smaller cache's keys are the larger one's most recent ones.
  predicate Included(ops: seq<Op>, m: nat, M: nat) {
    Keys(DoAll([], ops, m)) <= Keys(DoAll([], ops, M))
  }

  predicate NoMoreHits(ops: seq<Op>, m: nat, M: nat) {
    Hits([], ops, m) <= Hits([], ops, M)
  }

  ghost function SizeOf(rules: Rules, k: string): nat {
    if b: nat :| rules.sizes(k, b) then b else 0
  }

  lemma OneSizeKeeps(rules: Rules, ops: seq<Op>, m: nat, M: nat)
    requires OneSize(rules) && !rules.sweeps && !rules.gets && AllPermitted(rules, ops) && m <= M
    ensures Included(ops, m, M) && NoMoreHits(ops, m, M)
  {
    var size: string -> nat := k => SizeOf(rules, k);
    forall i | 0 <= i < |ops| ensures OpSized(ops[i], size) {
      assert Permitted(rules, ops[i]);
    }
    Inclusion([], [], ops, size, m, M);
  }

  // ---------------------------------------------------------------------------------------------
  // Operations on short lists.

  // An entry of the given size, stored at the start of time, that is used for so many seconds.
  function Plain(bytes: nat, ttl: nat): Entry
    requires bytes >= 64
  {
    CacheEntry(Payload(200, "", [], seq(bytes - 64, _ => 'x'), ""), 0, ttl, 0)
  }

  function Of(key: string, bytes: nat, ttl: nat): (x: Item)
    requires bytes >= 64
    ensures Proper(x)
  {
    Item(key, Plain(bytes, ttl), bytes)
  }

  predicate Proper(x: Item) {
    x.bytes == SizeBytes(x.entry.payload)
  }

  function Use(x: Item): Op {
    Access(x.key, x.entry)
  }

  // As many of three items as fit.
  function Fit3(x: Item, y: Item, z: Item, budget: int): seq<Item> {
    if x.bytes > budget then [] else if x.bytes + y.bytes > budget then [x]
    else if x.bytes + y.bytes + z.bytes > budget then [x, y] else [x, y, z]
  }

  lemma FitOne(x: Item, budget: int)
    ensures Fit([x], budget) == if x.bytes > budget then [] else [x]
  {
    assert [x][1..] == [];
  }

  lemma FitTwo(x: Item, y: Item, budget: int)
    ensures Fit([x, y], budget) == (if x.bytes > budget then [] else if x.bytes + y.bytes > budget then [x] else [x, y])
  {
    assert [x, y][1..] == [y];
    FitOne(y, budget - x.bytes);
  }

  lemma FitThree(x: Item, y: Item, z: Item, budget: int)
    ensures Fit([x, y, z], budget) == Fit3(x, y, z, budget)
  {
    assert [x, y, z][1..] == [y, z];
    FitTwo(y, z, budget - x.bytes);
  }

  lemma FitFour(x: Item, y: Item, z: Item, w: Item, budget: int)
    ensures Fit([x, y, z, w], budget)
            == (if x.bytes > budget then [] else [x] + Fit3(y, z, w, budget - x.bytes))
  {
    assert [x, y, z, w][1..] == [y, z, w];
    FitThree(y, z, w, budget - x.bytes);
  }

  // A use that misses.
  lemma Misses(items: seq<Item>, x: Item, budget: nat)
    requires Proper(x) && forall i :: 0 <= i < |items| ==> items[i].key != x.key
    ensures Do(items, Use(x), budget) == Fit([x] + items, budget) && IsHit(items, Use(x)) == 0
  {
    WithoutAbsent(items, x.key);
  }

  // A use that hits.
  lemma Finds(items: seq<Item>, p: nat, x: Item, budget: nat)
    requires DistinctKeys(items) && p < |items| && x.key == items[p].key
    ensures Do(items, Use(x), budget) == [items[p]] + (items[..p] + items[p + 1..]) && IsHit(items, Use(x)) == 1
  {
    WithoutAt(items, p);
  }

  lemma Miss0(x: Item, budget: nat)
    requires Proper(x) && x.bytes <= budget
    ensures Do([], Use(x), budget) == [x] && IsHit([], Use(x)) == 0
  {
    Misses([], x, budget);
    FitOne(x, budget);
  }

  lemma Miss1(a: Item, x: Item, budget: nat)
    requires Proper(x) && a.key != x.key && x.bytes <= budget
    ensures Do([a], Use(x), budget) == (if x.bytes + a.bytes > budget then [x] else [x, a])
    ensures IsHit([a], Use(x)) == 0
  {
    Misses([a], x, budget);
    assert [x] + [a] == [x, a];
    FitTwo(x, a, budget);
  }

  lemma Miss2(a: Item, b: Item, x: Item, budget: nat)
    requires Proper(x) && a.key != x.key && b.key != x.key
    ensures Do([a, b], Use(x), budget) == Fit3(x, a, b, budget) && IsHit([a, b], Use(x)) == 0
  {
    Misses([a, b], x, budget);
    assert [x] + [a, b] == [x, a, b];
    FitThree(x, a, b, budget);
  }

  lemma Miss3(a: Item, b: Item, c: Item, x: Item, budget: nat)
    requires Proper(x) && a.key != x.key && b.key != x.key && c.key != x.key && x.bytes <= budget
    ensures Do([a, b, c], Use(x), budget) == [x] + Fit3(a, b, c, budget - x.bytes)
    ensures IsHit([a, b, c], Use(x)) == 0
  {
    Misses([a, b, c], x, budget);
    assert [x] + [a, b, c] == [x, a, b, c];
    FitFour(x, a, b, c, budget);
  }

  lemma Hit1(a: Item, x: Item, budget: nat)
    requires x.key == a.key
    ensures Do([a], Use(x), budget) == [a] && IsHit([a], Use(x)) == 1
  {
    Finds([a], 0, x, budget);
    assert [a] + ([a][..0] + [a][1..]) == [a];
  }

  lemma Hit2(a: Item, b: Item, x: Item, budget: nat)
    requires a.key != b.key == x.key
    ensures Do([a, b], Use(x), budget) == [b, a] && IsHit([a, b], Use(x)) == 1
  {
    Finds([a, b], 1, x, budget);
    assert [b] + ([a, b][..1] + [a, b][2..]) == [b, a];
  }

  // The last of three.
  lemma Hit3(a: Item, b: Item, c: Item, x: Item, budget: nat)
    requires a.key != b.key && a.key != c.key && b.key != c.key == x.key
    ensures Do([a, b, c], Use(x), budget) == [c, a, b] && IsHit([a, b, c], Use(x)) == 1
  {
    Finds([a, b, c], 2, x, budget);
    assert [c] + ([a, b, c][..2] + [a, b, c][3..]) == [c, a, b];
  }

  // ---------------------------------------------------------------------------------------------
  // The two caches side by side.

  // What they hold, and how many more hits the smaller one has had.
  datatype Pair = Pair(small: seq<Item>, large: seq<Item>, lead: int)

  ghost predicate Leads(rules: Rules, ops: seq<Op>, m: nat, M: nat, p: Pair) {
    && AllPermitted(rules, ops)
    && DoAll([], ops, m) == p.small && DoAll([], ops, M) == p.large
    && Hits([], ops, m) - Hits([], ops, M) == p.lead
  }

  lemma {:induction false} LastOp(items: seq<Item>, ops: seq<Op>, op: Op, budget: nat)
    ensures DoAll(items, ops + [op], budget) == Do(DoAll(items, ops, budget), op, budget)
    ensures Hits(items, ops + [op], budget) == Hits(items, ops, budget) + IsHit(DoAll(items, ops, budget), op)
    decreases |ops|
  {
    if ops == [] {
      assert ([] + [op])[1..] == [];
      assert DoAll(Do(items, op, budget), [], budget) == Do(items, op, budget);
      assert Hits(Do(items, op, budget), [], budget) == 0;
    } else {
      assert (ops + [op])[0] == ops[0] && (ops + [op])[1..] == ops[1..] + [op];
      LastOp(Do(items, ops[0], budget), ops[1..], op, budget);
    }
  }

  lemma Nothing(rules: Rules, m: nat, M: nat) returns (ops: seq<Op>)
    ensures Leads(rules, ops, m, M, Pair([], [], 0))
  {
    ops := [];
  }

  lemma Next(rules: Rules, ops: seq<Op>, m: nat, M: nat, p: Pair, op: Op, p': Pair) returns (more: seq<Op>)
    requires Leads(rules, ops, m, M, p) && Permitted(rules, op)
    requires Do(p.small, op, m) == p'.small && Do(p.large, op, M) == p'.large
    requires p'.lead == p.lead + IsHit(p.small, op) - IsHit(p.large, op)
    ensures Leads(rules, more, m, M, p')
  {
    more := ops + [op];
    LastOp([], ops, op, m);
    LastOp([], ops, op, M);
  }

  lemma FirstUse(rules: Rules, x: Item, m: nat, M: nat) returns (ops: seq<Op>)
    requires Proper(x) && x.bytes <= m <= M && Permitted(rules, Use(x))
    ensures Leads(rules, ops, m, M, Pair([x], [x], 0))
  {
    Miss0(x, m);
    Miss0(x, M);
    ops := Nothing(rules, m, M);
    ops := Next(rules, ops, m, M, Pair([], [], 0), Use(x), Pair([x], [x], 0));
  }

  // A second one, for which the larger cache has room.
  lemma SecondUse(rules: Rules, a: Item, x: Item, m: nat, M: nat, ops: seq<Op>) returns (more: seq<Op>)
    requires Leads(rules, ops, m, M, Pair([a], [a], 0)) && a.key != x.key
    requires Proper(x) && Permitted(rules, Use(x)) && x.bytes <= m <= M && x.bytes + a.bytes <= M
    ensures Leads(rules, more, m, M, Pair(if x.bytes + a.bytes > m then [x] else [x, a], [x, a], 0))
  {
    Miss1(a, x, m);
    Miss1(a, x, M);
    var small := if x.bytes + a.bytes > m then [x] else [x, a];
    more := Next(rules, ops, m, M, Pair([a], [a], 0), Use(x), Pair(small, [x, a], 0));
  }

  lemma KeysOf(a: Item, b: Item, c: Item)
    ensures Keys([]) == [] && Keys([a]) == [a.key] && Keys([a, b]) == [a.key, b.key]
    ensures Keys([a, b, c]) == [a.key, b.key, c.key]
  {
    assert [a][1..] == [] && [b][1..] == [] && [c][1..] == [];
    assert [a, b][1..] == [b] && [b, c][1..] == [c] && [a, b, c][1..] == [b, c];
    assert Keys([b]) == [b.key] && Keys([c]) == [c.key];
    assert Keys([b, c]) == [b.key] + Keys([c]);
  }

  // ---------------------------------------------------------------------------------------------
  // Two sizes s < t for a key. The smaller cache has lost an entry and stores one of the other size, the larger one
  // still has the old entry.

  // Entries of both sizes for three keys, and a big one for a fourth.
  datatype Cast = Cast(As: Item, At: Item, Bs: Item, Bt: Item, Cs: Item, Ct: Item, Dt: Item, s: nat, t: nat)

  predicate Usable(rules: Rules, x: Item, bytes: nat) {
    Proper(x) && x.bytes == bytes && Permitted(rules, Use(x))
  }

  ghost predicate Suits(rules: Rules, q: Cast) {
    && 64 <= q.s < q.t
    && Usable(rules, q.As, q.s) && Usable(rules, q.Bs, q.s) && Usable(rules, q.Cs, q.s)
    && Usable(rules, q.At, q.t) && Usable(rules, q.Bt, q.t) && Usable(rules, q.Ct, q.t) && Usable(rules, q.Dt, q.t)
    && q.As.key == q.At.key && q.Bs.key == q.Bt.key && q.Cs.key == q.Ct.key
    && q.As.key != q.Bs.key && q.As.key != q.Cs.key && q.As.key != q.Dt.key
    && q.Bs.key != q.Cs.key && q.Bs.key != q.Dt.key && q.Cs.key != q.Dt.key
  }

  lemma CastFor(rules: Rules, ks: seq<string>, s: nat, t: nat) returns (q: Cast)
    requires Four(rules, ks, s, t) && 64 <= s < t
    ensures Suits(rules, q) && q.s == s && q.t == t
  {
    q := Cast(Of(ks[0], s, 1), Of(ks[0], t, 1), Of(ks[1], s, 1), Of(ks[1], t, 1), Of(ks[2], s, 1), Of(ks[2], t, 1),
              Of(ks[3], t, 1), s, t);
  }

  // When t is more than twice s, one key's difference
  lemma WideStart(rules: Rules, q: Cast) returns (ops: seq<Op>)
    requires Suits(rules, q) && q.t > 2 * q.s
    ensures Leads(rules, ops, q.s + q.t - 1, q.s + q.t, Pair([q.Bs], [q.Bs, q.At], 0))
  {
    var m, M := q.s + q.t - 1, q.s + q.t;
    var At, Bs := q.At, q.Bs;
    ops := FirstUse(rules, At, m, M);
    ops := SecondUse(rules, At, Bs, m, M, ops);
  }

  // makes room for another entry,
  lemma WideBreak(rules: Rules, q: Cast, ops: seq<Op>) returns (more: seq<Op>)
    requires Suits(rules, q) && q.t > 2 * q.s
    requires Leads(rules, ops, q.s + q.t - 1, q.s + q.t, Pair([q.Bs], [q.Bs, q.At], 0))
    ensures Leads(rules, more, q.s + q.t - 1, q.s + q.t, Pair([q.Cs, q.As, q.Bs], [q.Cs, q.At], -1))
  {
    var m, M := q.s + q.t - 1, q.s + q.t;
    var As, At, Bs, Cs := q.As, q.At, q.Bs, q.Cs;
    Miss1(Bs, As, m);
    Hit2(Bs, At, As, M);
    var p := Pair([As, Bs], [At, Bs], -1);
    more := Next(rules, ops, m, M, Pair([Bs], [Bs, At], 0), Use(As), p);
    Miss2(As, Bs, Cs, m);
    Miss2(At, Bs, Cs, M);
    more := Next(rules, more, m, M, p, Use(Cs), Pair([Cs, As, Bs], [Cs, At], -1));
  }

  // which is then found.
  lemma WideEnd(rules: Rules, q: Cast, ops: seq<Op>) returns (more: seq<Op>, p: Pair)
    requires Suits(rules, q) && q.t > 2 * q.s
    requires Leads(rules, ops, q.s + q.t - 1, q.s + q.t, Pair([q.Cs, q.As, q.Bs], [q.Cs, q.At], -1))
    ensures Leads(rules, more, q.s + q.t - 1, q.s + q.t, p) && p.lead == 1
  {
    var m, M := q.s + q.t - 1, q.s + q.t;
    var As, At, Bs, Cs := q.As, q.At, q.Bs, q.Cs;
    var p0 := Pair([Cs, As, Bs], [Cs, At], -1);
    Hit3(Cs, As, Bs, Bs, m);
    Miss2(Cs, At, Bs, M);
    var p1 := Pair([Bs, Cs, As], [Bs, Cs], 0);
    more := Next(rules, ops, m, M, p0, Use(Bs), p1);
    Hit3(Bs, Cs, As, As, m);
    Miss2(Bs, Cs, As, M);
    p := Pair([As, Bs, Cs], [As, Bs, Cs], 1);
    more := Next(rules, more, m, M, p1, Use(As), p);
  }

  // Otherwise it takes two keys with the smaller size in the smaller cache; a third one, with the sizes the other way
  // round, makes up for the first of them.
  lemma NarrowStart(rules: Rules, q: Cast) returns (ops: seq<Op>)
    requires Suits(rules, q) && q.t <= 2 * q.s
    ensures Leads(rules, ops, 2 * q.s + q.t, q.s + 2 * q.t, Pair([q.Ct, q.Bt], [q.Ct, q.Bt, q.As], 0))
  {
    var m, M := 2 * q.s + q.t, q.s + 2 * q.t;
    var As, Bt, Ct := q.As, q.Bt, q.Ct;
    ops := FirstUse(rules, As, m, M);
    ops := SecondUse(rules, As, Bt, m, M, ops);
    Miss2(Bt, As, Ct, m);
    Miss2(Bt, As, Ct, M);
    ops := Next(rules, ops, m, M, Pair([Bt, As], [Bt, As], 0), Use(Ct), Pair([Ct, Bt], [Ct, Bt, As], 0));
  }

  // A use that misses in the smaller cache and hits the larger one's last entry.
  lemma Swap(rules: Rules, m: nat, M: nat, a: Item, b: Item, x': Item, y': Item, z': Item, x: Item, lead: int,
             ops: seq<Op>) returns (more: seq<Op>)
    requires a.key != x.key && b.key != x.key && Proper(x) && Permitted(rules, Use(x))
    requires x'.key != y'.key && x'.key != z'.key && y'.key != z'.key == x.key
    requires Leads(rules, ops, m, M, Pair([a, b], [x', y', z'], lead))
    ensures Leads(rules, more, m, M, Pair(Fit3(x, a, b, m), [z', x', y'], lead - 1))
  {
    Miss2(a, b, x, m);
    Hit3(x', y', z', x, M);
    var p, p' := Pair([a, b], [x', y', z'], lead), Pair(Fit3(x, a, b, m), [z', x', y'], lead - 1);
    more := Next(rules, ops, m, M, p, Use(x), p');
  }

  lemma NarrowTurn(rules: Rules, q: Cast, ops: seq<Op>) returns (more: seq<Op>)
    requires Suits(rules, q) && q.t <= 2 * q.s
    requires Leads(rules, ops, 2 * q.s + q.t, q.s + 2 * q.t, Pair([q.Ct, q.Bt], [q.Ct, q.Bt, q.As], 0))
    ensures Leads(rules, more, 2 * q.s + q.t, q.s + 2 * q.t, Pair([q.At, q.Ct], [q.As, q.Ct, q.Bt], -1))
  {
    more := Swap(rules, 2 * q.s + q.t, q.s + 2 * q.t, q.Ct, q.Bt, q.Ct, q.Bt, q.As, q.At, 0, ops);
  }

  lemma NarrowMiddle(rules: Rules, q: Cast, ops: seq<Op>) returns (more: seq<Op>)
    requires Suits(rules, q) && q.t <= 2 * q.s
    requires Leads(rules, ops, 2 * q.s + q.t, q.s + 2 * q.t, Pair([q.At, q.Ct], [q.As, q.Ct, q.Bt], -1))
    ensures Leads(rules, more, 2 * q.s + q.t, q.s + 2 * q.t, Pair([q.Bs, q.At], [q.Bt, q.As, q.Ct], -2))
  {
    more := Swap(rules, 2 * q.s + q.t, q.s + 2 * q.t, q.At, q.Ct, q.As, q.Ct, q.Bt, q.Bs, -1, ops);
  }

  lemma NarrowLast(rules: Rules, q: Cast, ops: seq<Op>) returns (more: seq<Op>)
    requires Suits(rules, q) && q.t <= 2 * q.s
    requires Leads(rules, ops, 2 * q.s + q.t, q.s + 2 * q.t, Pair([q.Bs, q.At], [q.Bt, q.As, q.Ct], -2))
    ensures Leads(rules, more, 2 * q.s + q.t, q.s + 2 * q.t, Pair([q.Cs, q.Bs, q.At], [q.Ct, q.Bt, q.As], -3))
  {
    more := Swap(rules, 2 * q.s + q.t, q.s + 2 * q.t, q.Bs, q.At, q.Bt, q.As, q.Ct, q.Cs, -2, ops);
  }

  // The three together.
  lemma NarrowSwap(rules: Rules, q: Cast) returns (ops: seq<Op>)
    requires Suits(rules, q) && q.t <= 2 * q.s
    ensures Leads(rules, ops, 2 * q.s + q.t, q.s + 2 * q.t, Pair([q.Cs, q.Bs, q.At], [q.Ct, q.Bt, q.As], -3))
  {
    ops := NarrowStart(rules, q);
    ops := NarrowTurn(rules, q, ops);
    ops := NarrowMiddle(rules, q, ops);
    ops := NarrowLast(rules, q, ops);
  }

  lemma NarrowBreak(rules: Rules, q: Cast, ops: seq<Op>) returns (more: seq<Op>)
    requires Suits(rules, q) && q.t <= 2 * q.s
    requires Leads(rules, ops, 2 * q.s + q.t, q.s + 2 * q.t, Pair([q.Cs, q.Bs, q.At], [q.Ct, q.Bt, q.As], -3))
    ensures Leads(rules, more, 2 * q.s + q.t, q.s + 2 * q.t, Pair([q.Dt, q.Cs, q.Bs], [q.Dt, q.Ct], -3))
  {
    var m, M := 2 * q.s + q.t, q.s + 2 * q.t;
    var As, Bt, Ct, Dt := q.As, q.Bt, q.Ct, q.Dt;
    var At, Bs, Cs := q.At, q.Bs, q.Cs;
    Miss3(Cs, Bs, At, Dt, m);
    Miss3(Ct, Bt, As, Dt, M);
    assert [Dt] + [Cs, Bs] == [Dt, Cs, Bs] && [Dt] + [Ct] == [Dt, Ct];
    more := Next(rules, ops, m, M, Pair([Cs, Bs, At], [Ct, Bt, As], -3), Use(Dt), Pair([Dt, Cs, Bs], [Dt, Ct], -3));
  }

  // Three entries that the smaller cache keeps and the larger one cannot; using them in turn always hits in the one
  // and never in the other.
  lemma Round(rules: Rules, m: nat, M: nat, x: Item, y: Item, z: Item, x': Item, y': Item, z': Item, lead: int,
              ops: seq<Op>) returns (more: seq<Op>)
    requires x.key != y.key && x.key != z.key && y.key != z.key
    requires x'.key == x.key && y'.key == y.key && z'.key == z.key && Proper(z') && Permitted(rules, Use(z'))
    requires z'.bytes + x'.bytes <= M < z'.bytes + x'.bytes + y'.bytes
    requires Leads(rules, ops, m, M, Pair([x, y, z], [x', y'], lead))
    ensures Leads(rules, more, m, M, Pair([z, x, y], [z', x'], lead + 1))
  {
    Hit3(x, y, z, z', m);
    Miss2(x', y', z', M);
    more := Next(rules, ops, m, M, Pair([x, y, z], [x', y'], lead), Use(z'), Pair([z, x, y], [z', x'], lead + 1));
  }

  lemma NarrowTwice(rules: Rules, q: Cast, ops: seq<Op>) returns (more: seq<Op>)
    requires Suits(rules, q) && q.t <= 2 * q.s
    requires Leads(rules, ops, 2 * q.s + q.t, q.s + 2 * q.t, Pair([q.Dt, q.Cs, q.Bs], [q.Dt, q.Ct], -3))
    ensures Leads(rules, more, 2 * q.s + q.t, q.s + 2 * q.t, Pair([q.Cs, q.Bs, q.Dt], [q.Ct, q.Bt], -1))
  {
    var m, M := 2 * q.s + q.t, q.s + 2 * q.t;
    more := Round(rules, m, M, q.Dt, q.Cs, q.Bs, q.Dt, q.Ct, q.Bt, -3, ops);
    more := Round(rules, m, M, q.Bs, q.Dt, q.Cs, q.Bt, q.Dt, q.Ct, -2, more);
  }

  lemma NarrowEnd(rules: Rules, q: Cast, ops: seq<Op>) returns (more: seq<Op>)
    requires Suits(rules, q) && q.t <= 2 * q.s
    requires Leads(rules, ops, 2 * q.s + q.t, q.s + 2 * q.t, Pair([q.Cs, q.Bs, q.Dt], [q.Ct, q.Bt], -1))
    ensures Leads(rules, more, 2 * q.s + q.t, q.s + 2 * q.t, Pair([q.Bs, q.Dt, q.Cs], [q.Bt, q.Dt], 1))
  {
    var m, M := 2 * q.s + q.t, q.s + 2 * q.t;
    more := Round(rules, m, M, q.Cs, q.Bs, q.Dt, q.Ct, q.Bt, q.Dt, -1, ops);
    more := Round(rules, m, M, q.Dt, q.Cs, q.Bs, q.Dt, q.Ct, q.Bt, 0, more);
  }

  // ---------------------------------------------------------------------------------------------
  // What the permitted operations can do.

  ghost predicate Loses(rules: Rules, ops: seq<Op>, m: nat, M: nat) {
    AllPermitted(rules, ops) && m <= M && !Included(ops, m, M)
  }

  ghost predicate MissesMore(rules: Rules, ops: seq<Op>, m: nat, M: nat) {
    AllPermitted(rules, ops) && m <= M && !NoMoreHits(ops, m, M)
  }

  lemma LongerLoses(rules: Rules, ops: seq<Op>, m: nat, M: nat, p: Pair)
    requires Leads(rules, ops, m, M, p) && m <= M && |p.small| == 3 && |p.large| == 2
    ensures Loses(rules, ops, m, M)
  {
    KeyEach(p.small);
    KeyEach(p.large);
  }

  lemma {:induction false} KeyEach(items: seq<Item>)
    ensures |Keys(items)| == |items|
  {
    if items != [] {
      KeyEach(items[1..]);
    }
  }

  lemma WideLoses(rules: Rules, q: Cast) returns (ops: seq<Op>)
    requires Suits(rules, q) && q.t > 2 * q.s
    ensures Loses(rules, ops, q.s + q.t - 1, q.s + q.t)
  {
    ops := WideStart(rules, q);
    ops := WideBreak(rules, q, ops);
    var p := Pair([q.Cs, q.As, q.Bs], [q.Cs, q.At], -1);
    LongerLoses(rules, ops, q.s + q.t - 1, q.s + q.t, p);
  }

  lemma NarrowLoses(rules: Rules, q: Cast) returns (ops: seq<Op>)
    requires Suits(rules, q) && q.t <= 2 * q.s
    ensures Loses(rules, ops, 2 * q.s + q.t, q.s + 2 * q.t)
  {
    ops := NarrowSwap(rules, q);
    ops := NarrowBreak(rules, q, ops);
    var p := Pair([q.Dt, q.Cs, q.Bs], [q.Dt, q.Ct], -3);
    LongerLoses(rules, ops, 2 * q.s + q.t, q.s + 2 * q.t, p);
  }

  lemma TwoSizesLose(rules: Rules, ks: seq<string>, s: nat, t: nat) returns (ops: seq<Op>, m: nat, M: nat)
    requires Four(rules, ks, s, t) && 64 <= s < t
    ensures Loses(rules, ops, m, M)
  {
    var q := CastFor(rules, ks, s, t);
    if t > 2 * s {
      m, M := s + t - 1, s + t;
      ops := WideLoses(rules, q);
    } else {
      m, M := 2 * s + t, s + 2 * t;
      ops := NarrowLoses(rules, q);
    }
  }

  lemma WideMisses(rules: Rules, q: Cast) returns (ops: seq<Op>)
    requires Suits(rules, q) && q.t > 2 * q.s
    ensures MissesMore(rules, ops, q.s + q.t - 1, q.s + q.t)
  {
    ops := WideStart(rules, q);
    ops := WideBreak(rules, q, ops);
    var p;
    ops, p := WideEnd(rules, q, ops);
  }

  lemma NarrowMisses(rules: Rules, q: Cast) returns (ops: seq<Op>)
    requires Suits(rules, q) && q.t <= 2 * q.s
    ensures MissesMore(rules, ops, 2 * q.s + q.t, q.s + 2 * q.t)
  {
    ops := NarrowSwap(rules, q);
    ops := NarrowBreak(rules, q, ops);
    ops := NarrowTwice(rules, q, ops);
    ops := NarrowEnd(rules, q, ops);
  }

  lemma TwoSizesMiss(rules: Rules, ks: seq<string>, s: nat, t: nat) returns (ops: seq<Op>, m: nat, M: nat)
    requires Four(rules, ks, s, t) && 64 <= s < t
    ensures MissesMore(rules, ops, m, M)
  {
    var q := CastFor(rules, ks, s, t);
    if t > 2 * s {
      m, M := s + t - 1, s + t;
      ops := WideMisses(rules, q);
    } else {
      m, M := 2 * s + t, s + 2 * t;
      ops := NarrowMisses(rules, q);
    }
  }

  // A get of what only the larger cache has makes it that cache's most recent entry.
  lemma GetsLose(rules: Rules, a: string, b: string, z: nat) returns (ops: seq<Op>, m: nat, M: nat)
    requires rules.gets && z >= 64 && a != b && rules.sizes(a, z) && rules.sizes(b, z)
    ensures Loses(rules, ops, m, M)
  {
    m, M := z, 2 * z;
    var A, B := Of(a, z, 1), Of(b, z, 1);
    ops := OneLeft(rules, A, B, m, M);
    Absent1(A, b, m);
    Hit2(A, B, B, M);
    ops := Next(rules, ops, m, M, Pair([A], [A, B], 0), Get(b), Pair([A], [B, A], -1));
    KeysOf(A, B, B);
    KeysOf(B, A, A);
    assert Keys(DoAll([], ops, m))[0] != Keys(DoAll([], ops, M))[0];
  }

  // Room for one entry and room for two.
  lemma OneLeft(rules: Rules, A: Item, B: Item, m: nat, M: nat) returns (ops: seq<Op>)
    requires Proper(A) && Proper(B) && A.key != B.key && A.bytes == B.bytes == m && M == 2 * m
    requires Permitted(rules, Use(A)) && Permitted(rules, Use(B))
    ensures Leads(rules, ops, m, M, Pair([A], [A, B], 0))
  {
    ops := FirstUse(rules, B, m, M);
    ops := SecondUse(rules, B, A, m, M, ops);
  }

  lemma Absent1(A: Item, b: string, m: nat)
    requires A.key != b
    ensures Do([A], Get(b), m) == [A] && IsHit([A], Get(b)) == 0
  {
  }

  // A sweep goes by age. The smaller cache has lost an entry and fetched it anew, the larger one still has the old one.
  lemma SweepLoses(rules: Rules, a: string, b: string, z: nat) returns (ops: seq<Op>)
    requires rules.sweeps && z >= 64 && a != b && rules.sizes(a, z) && rules.sizes(b, z)
    ensures Leads(rules, ops, z, 2 * z, Pair([Of(a, z, 100)], [], -1))
  {
    var A, B, New := Of(a, z, 1), Of(b, z, 1), Of(a, z, 100);
    ops := OneLeft(rules, B, A, z, 2 * z);
    Miss1(B, New, z);
    Hit2(B, A, New, 2 * z);
    ops := Next(rules, ops, z, 2 * z, Pair([B], [B, A], 0), Use(New), Pair([New], [A, B], -1));
    var at := 10 * NS_PER_SECOND;
    SweptAway(A, B, New, at);
    ops := Next(rules, ops, z, 2 * z, Pair([New], [A, B], -1), Sweep(at), Pair([New], [], -1));
  }

  lemma SweptAway(a: Item, b: Item, young: Item, now: int)
    requires !IsServeableStale(a.entry, now) && !IsServeableStale(b.entry, now) && IsServeableStale(young.entry, now)
    ensures Swept([a, b], now) == [] && Swept([a], now) == [] && Swept([young], now) == [young]
  {
    assert [a, b][1..] == [b] && [a][1..] == [] && [b][1..] == [] && [young][1..] == [];
    assert Keep([b], Unexpired(now)) == [];
  }

  // A use between two sweeps then hits in the smaller cache only, twice.
  lemma SweepMisses(rules: Rules, a: string, b: string, z: nat) returns (ops: seq<Op>)
    requires rules.sweeps && z >= 64 && a != b && rules.sizes(a, z) && rules.sizes(b, z)
    ensures Leads(rules, ops, z, 2 * z, Pair([Of(a, z, 100)], [Of(a, z, 1)], 1))
  {
    var A, New := Of(a, z, 1), Of(a, z, 100);
    ops := SweepLoses(rules, a, b, z);
    Hit1(New, A, z);
    Miss0(A, 2 * z);
    ops := Next(rules, ops, z, 2 * z, Pair([New], [], -1), Use(A), Pair([New], [A], 0));
    var at := 20 * NS_PER_SECOND;
    SweptAway(A, A, New, at);
    ops := Next(rules, ops, z, 2 * z, Pair([New], [A], 0), Sweep(at), Pair([New], [], 0));
    ops := Next(rules, ops, z, 2 * z, Pair([New], [], 0), Use(A), Pair([New], [A], 1));
  }

  // ---------------------------------------------------------------------------------------------

  lemma TwoKeys(rules: Rules) returns (a: string, b: string, z: nat)
    requires Plenty(rules)
    ensures z >= 64 && a != b && rules.sizes(a, z) && rules.sizes(b, z)
  {
    var k;
    k, z :| rules.sizes(k, z);
    var ks :| Four(rules, ks, z, z);
    a, b := ks[0], ks[1];
  }

  lemma TwoSizes(rules: Rules) returns (ks: seq<string>, s: nat, t: nat)
    requires Plenty(rules) && !OneSize(rules)
    ensures Four(rules, ks, s, t) && 64 <= s < t
  {
    var k: string, b1: nat, b2: nat :| rules.sizes(k, b1) && rules.sizes(k, b2) && b1 != b2;
    if b1 < b2 {
      s, t := b1, b2;
    } else {
      s, t := b2, b1;
    }
    assert rules.sizes(k, s) && rules.sizes(k, t);
    ks :| Four(rules, ks, s, t);
  }

  // For all budgets and all sequences of permitted operations, the smaller cache holds the larger one's most recent
  // entries: exactly when no key has two sizes, nothing is swept, and no get goes without its put.
  lemma InclusionExactly(rules: Rules)
    requires Plenty(rules)
    ensures (forall ops, m: nat, M: nat :: AllPermitted(rules, ops) && m <= M ==> Included(ops, m, M))
            <==> OneSize(rules) && !rules.sweeps && !rules.gets
  {
    if OneSize(rules) && !rules.sweeps && !rules.gets {
      forall ops, m: nat, M: nat | AllPermitted(rules, ops) && m <= M ensures Included(ops, m, M) {
        OneSizeKeeps(rules, ops, m, M);
      }
    } else {
      var ops, m, M;
      if !OneSize(rules) {
        var ks, s, t := TwoSizes(rules);
        ops, m, M := TwoSizesLose(rules, ks, s, t);
      } else {
        var a, b, z := TwoKeys(rules);
        if rules.gets {
          ops, m, M := GetsLose(rules, a, b, z);
        } else {
          ops := SweepLoses(rules, a, b, z);
          m, M := z, 2 * z;
          KeysOf(Of(a, z, 100), Of(a, z, 100), Of(a, z, 100));
        }
      }
      assert Loses(rules, ops, m, M);
    }
  }

  // The larger cache always has at least as many hits: of operations without such gets, exactly when no key has two
  // sizes and nothing is swept.
  lemma HitsExactly(rules: Rules)
    requires Plenty(rules) && !rules.gets
    ensures (forall ops, m: nat, M: nat :: AllPermitted(rules, ops) && m <= M ==> NoMoreHits(ops, m, M))
            <==> OneSize(rules) && !rules.sweeps
  {
    if OneSize(rules) && !rules.sweeps {
      forall ops, m: nat, M: nat | AllPermitted(rules, ops) && m <= M ensures NoMoreHits(ops, m, M) {
        OneSizeKeeps(rules, ops, m, M);
      }
    } else {
      var ops, m, M;
      if !OneSize(rules) {
        var ks, s, t := TwoSizes(rules);
        ops, m, M := TwoSizesMiss(rules, ks, s, t);
      } else {
        var a, b, z := TwoKeys(rules);
        ops := SweepMisses(rules, a, b, z);
        m, M := z, 2 * z;
      }
      assert MissesMore(rules, ops, m, M);
    }
  }

  // Such gets can cost the larger cache hits as well, though every key has one size: it keeps one big entry for a get,
  // where the smaller one has two that are used.

  function BigOrSmall(k: string): nat {
    if k == "z" then 256 else if k == "k" then 192 else 128
  }

  const GETTING: Rules := Rules((k, b) => b == BigOrSmall(k), false, true)

  lemma Filled() returns (ops: seq<Op>)
    ensures Leads(GETTING, ops, 448, 512,
                  Pair([Of("x", 128, 1), Of("y", 128, 1)], [Of("x", 128, 1), Of("y", 128, 1), Of("z", 256, 1)], 0))
  {
    var X, Y, Z := Of("x", 128, 1), Of("y", 128, 1), Of("z", 256, 1);
    ops := FirstUse(GETTING, Z, 448, 512);
    ops := SecondUse(GETTING, Z, Y, 448, 512, ops);
    Miss2(Y, Z, X, 448);
    Miss2(Y, Z, X, 512);
    ops := Next(GETTING, ops, 448, 512, Pair([Y, Z], [Y, Z], 0), Use(X), Pair([X, Y], [X, Y, Z], 0));
  }

  lemma Crowded(ops: seq<Op>) returns (more: seq<Op>)
    requires Leads(GETTING, ops, 448, 512,
                   Pair([Of("x", 128, 1), Of("y", 128, 1)], [Of("x", 128, 1), Of("y", 128, 1), Of("z", 256, 1)], 0))
    ensures Leads(GETTING, more, 448, 512,
                  Pair([Of("k", 192, 1), Of("x", 128, 1), Of("y", 128, 1)], [Of("k", 192, 1), Of("z", 256, 1)], -1))
  {
    var X, Y, Z, K := Of("x", 128, 1), Of("y", 128, 1), Of("z", 256, 1), Of("k", 192, 1);
    var p := Pair([X, Y], [Z, X, Y], -1);
    Absent2(X, Y, "z", 448);
    Hit3(X, Y, Z, Z, 512);
    more := Next(GETTING, ops, 448, 512, Pair([X, Y], [X, Y, Z], 0), Get("z"), p);
    Miss2(X, Y, K, 448);
    Miss3(Z, X, Y, K, 512);
    assert [K] + [Z] == [K, Z];
    more := Next(GETTING, more, 448, 512, p, Use(K), Pair([K, X, Y], [K, Z], -1));
  }

  lemma GetsCostHits() returns (ops: seq<Op>)
    ensures OneSize(GETTING) && !GETTING.sweeps && AllPermitted(GETTING, ops)
    ensures Hits([], ops, 448) > Hits([], ops, 512)
  {
    var X, Y, Z, K := Of("x", 128, 1), Of("y", 128, 1), Of("z", 256, 1), Of("k", 192, 1);
    ops := Filled();
    ops := Crowded(ops);
    Hit3(K, X, Y, Y, 448);
    Miss2(K, Z, Y, 512);
    var p := Pair([Y, K, X], [Y, K], 0);
    ops := Next(GETTING, ops, 448, 512, Pair([K, X, Y], [K, Z], -1), Use(Y), p);
    Hit3(Y, K, X, X, 448);
    Miss2(Y, K, X, 512);
    ops := Next(GETTING, ops, 448, 512, p, Use(X), Pair([X, Y, K], [X, Y, K], 1));
  }

  lemma Absent2(a: Item, b: Item, key: string, m: nat)
    requires a.key != key && b.key != key
    ensures Do([a, b], Get(key), m) == [a, b] && IsHit([a, b], Get(key)) == 0
  {
  }
}
