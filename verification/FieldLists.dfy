// Text made of consecutive fields, and a cursor that reads them one after the other. The reader of one field is
// a parameter: what is proved here holds for every field format.
module FieldLists {
  import opened Wrappers
  import opened CacheEntries

  // Reads a field of some kind at a cursor: the value and the cursor after it.
  type Reader<!K, V> = (string, nat, K) -> Option<(V, nat)>

  function ReadAll<K, V>(read: Reader<K, V>, blob: string, p: nat, kinds: seq<K>, acc: seq<V>)
    : (r: Option<(seq<V>, nat)>)
    ensures r.Some? ==> |r.value.0| == |acc| + |kinds| && acc <= r.value.0
    decreases |kinds|, |blob|
  {
    if kinds == [] then Some((acc, p))
    else match read(blob, p, kinds[0])
      case None => None
      case Some((v, q)) => ReadAll(read, blob, q, kinds[1..], acc + [v])
  }

  // The text is a field of kind k with value v: the reader finds v wherever the text stands in a blob, stops
  // right behind it, and refuses a blob that ends inside it.
  ghost predicate Codes<K, V>(read: Reader<K, V>, text: string, k: K, v: V) {
    && |text| > 0
    && (forall b: string, p: nat {:trigger read(b, p, k)} :: p + |text| <= |b| < U64 && b[p..p + |text|] == text
          ==> read(b, p, k) == Some((v, p + |text|)))
    && (forall b: string, p: nat {:trigger read(b, p, k)} ::
          p <= |b| && p + |text| < U64 && b[p..] < text ==> read(b, p, k) == None)
  }

  function Flatten(texts: seq<string>): string {
    if texts == [] then "" else texts[0] + Flatten(texts[1..])
  }

  lemma {:induction false} FlattenConcat(a: seq<string>, b: seq<string>)
    ensures Flatten(a + b) == Flatten(a) + Flatten(b)
  {
    if a == [] {
      assert a + b == b;
    } else {
      assert (a + b)[1..] == a[1..] + b;
      FlattenConcat(a[1..], b);
    }
  }

  lemma FlattenSnoc(texts: seq<string>, i: nat)
    requires i < |texts|
    ensures Flatten(texts[..i + 1]) == Flatten(texts[..i]) + texts[i]
  {
    assert texts[..i + 1] == texts[..i] + [texts[i]];
    FlattenConcat(texts[..i], [texts[i]]);
    assert Flatten([texts[i]]) == texts[i] + "";
  }

  ghost predicate AllCode<K, V>(read: Reader<K, V>, texts: seq<string>, kinds: seq<K>, values: seq<V>) {
    && |texts| == |kinds| == |values|
    && forall i {:trigger Codes(read, texts[i], kinds[i], values[i])} :: 0 <= i < |texts| ==>
         Codes(read, texts[i], kinds[i], values[i])
  }

  lemma FirstText(blob: string, p: nat, t: string, tail: string, rest: string)
    requires p <= |blob| && blob[p..] == t + tail + rest
    ensures p + |t| <= |blob| && blob[p..p + |t|] == t && blob[p + |t|..] == tail + rest
    ensures blob[p..] == t + (tail + rest)
  {
    assert blob[p..] == t + (tail + rest);
    assert blob[p..][..|t|] == t && blob[p..][|t|..] == tail + rest;
  }

  lemma WholeText(head: string, tail: string, suffix: string)
    ensures var blob := head + tail + suffix;
            blob[0..] == head + (tail + suffix) && blob[|head|..] == tail + suffix
  {
  }

  lemma Regroup<V>(a: seq<V>, b: seq<V>)
    requires b != []
    ensures a + [b[0]] + b[1..] == a + b
  {
  }

  // Consecutive fields are read back in order, whatever follows them, and nothing behind them is touched.
  lemma {:induction false} FieldsRead<K, V>(read: Reader<K, V>, blob: string, p: nat, texts: seq<string>, kinds: seq<K>,
                                            values: seq<V>, rest: string, acc: seq<V>)
    requires AllCode(read, texts, kinds, values)
    requires p <= |blob| < U64 && blob[p..] == Flatten(texts) + rest
    ensures ReadAll(read, blob, p, kinds, acc) == Some((acc + values, p + |Flatten(texts)|))
    decreases |texts|
  {
    if texts == [] {
      assert kinds == [] && acc + values == acc;
    } else {
      var t := texts[0];
      assert Flatten(texts) == t + Flatten(texts[1..]);
      FirstText(blob, p, t, Flatten(texts[1..]), rest);
      assert Codes(read, texts[0], kinds[0], values[0]);
      Regroup(acc, values);
      FieldsRead(read, blob, p + |t|, texts[1..], kinds[1..], values[1..], rest, acc + [values[0]]);
    }
  }

  lemma AllRead<K, V>(read: Reader<K, V>, blob: string, p: nat, texts: seq<string>, kinds: seq<K>, values: seq<V>,
                      text: string, rest: string)
    requires AllCode(read, texts, kinds, values) && Flatten(texts) == text
    requires p <= |blob| < U64 && blob[p..] == text + rest
    ensures ReadAll(read, blob, p, kinds, []) == Some((values, p + |text|))
  {
    FieldsRead(read, blob, p, texts, kinds, values, rest, []);
    assert [] + values == values;
  }

  lemma FirstCut(blob: string, p: nat, t: string, rest: string)
    requires p <= |blob| && blob[p..] < t + rest
    ensures |blob| - p < |t| ==> blob[p..] < t
    ensures |blob| - p >= |t| ==> blob[p..p + |t|] == t && blob[p + |t|..] < rest
  {
    var all := t + rest;
    assert forall i :: 0 <= i < |blob| - p ==> blob[p + i] == all[i];
  }

  // Fields cut short anywhere are refused.
  lemma {:induction false} FieldsCut<K, V>(read: Reader<K, V>, blob: string, p: nat, texts: seq<string>, kinds: seq<K>,
                                           values: seq<V>, acc: seq<V>)
    requires AllCode(read, texts, kinds, values)
    requires p <= |blob| && p + |Flatten(texts)| < U64 && blob[p..] < Flatten(texts)
    ensures ReadAll(read, blob, p, kinds, acc) == None
    decreases |texts|
  {
    var t := texts[0];
    FirstCut(blob, p, t, Flatten(texts[1..]));
    assert Codes(read, texts[0], kinds[0], values[0]);
    if |blob| - p >= |t| {
      FieldsCut(read, blob, p + |t|, texts[1..], kinds[1..], values[1..], acc + [values[0]]);
    }
  }
}
