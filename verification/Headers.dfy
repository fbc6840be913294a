// HTTP headers as the code keeps them: std::map ordered by CaseInsensitiveLess, that is, a list sorted by
// lower-cased name in which no two names agree up to case.
module HttpHeaders {
  import opened Wrappers
  import opened Strings

  type Headers = seq<(string, string)>

  // What a cache keeps of a response.
  datatype Payload = Payload(status: int, reason: string, headers: Headers, body: string, etag: string)

  predicate NameLess(a: string, b: string) {
    Below(Lower(a), Lower(b))
  }

  predicate SameName(a: string, b: string) {
    Lower(a) == Lower(b)
  }

  ghost predicate Ordered(h: Headers) {
    forall i, j :: 0 <= i < j < |h| ==> NameLess(h[i].0, h[j].0)
  }

  // headers[name] = value: an equivalent name keeps its spelling and gets the new value.
  function Assign(h: Headers, name: string, value: string): Headers {
    if h == [] then [(name, value)]
    else if SameName(h[0].0, name) then [(h[0].0, value)] + h[1..]
    else if NameLess(name, h[0].0) then [(name, value)] + h
    else [h[0]] + Assign(h[1..], name, value)
  }

  // headers.find(name)
  function HeaderOf(h: Headers, name: string): Option<string> {
    if h == [] then None
    else if SameName(h[0].0, name) then Some(h[0].1)
    else HeaderOf(h[1..], name)
  }

  lemma {:induction false} AssignLookup(h: Headers, name: string, value: string, other: string)
    ensures HeaderOf(Assign(h, name, value), other)
            == (if SameName(name, other) then Some(value) else HeaderOf(h, other))
  {
    if h != [] && !SameName(h[0].0, name) && !NameLess(name, h[0].0) {
      AssignLookup(h[1..], name, value, other);
      assert ([h[0]] + Assign(h[1..], name, value))[1..] == Assign(h[1..], name, value);
    }
  }

  lemma {:induction false} AssignNames(h: Headers, name: string, value: string)
    ensures forall i :: 0 <= i < |Assign(h, name, value)| ==>
              SameName(Assign(h, name, value)[i].0, name)
              || exists j :: 0 <= j < |h| && Assign(h, name, value)[i].0 == h[j].0
  {
    if h != [] && !SameName(h[0].0, name) && !NameLess(name, h[0].0) {
      AssignNames(h[1..], name, value);
      var rest := Assign(h[1..], name, value);
      forall i | 0 <= i < |[h[0]] + rest|
        ensures SameName(([h[0]] + rest)[i].0, name) || exists j :: 0 <= j < |h| && ([h[0]] + rest)[i].0 == h[j].0
      {
        if i > 0 && !SameName(rest[i - 1].0, name) {
          var j :| 0 <= j < |h[1..]| && rest[i - 1].0 == h[1..][j].0;
          assert h[j + 1].0 == rest[i - 1].0;
        }
      }
    }
  }

  // The order is an invariant of assignment.
  lemma {:induction false} AssignOrdered(h: Headers, name: string, value: string)
    requires Ordered(h)
    ensures Ordered(Assign(h, name, value))
  {
    if h == [] {
    } else if SameName(h[0].0, name) {
    } else if NameLess(name, h[0].0) {
      forall j | 0 <= j < |h| ensures NameLess(name, h[j].0) {
        if j > 0 {
          BelowTransitive(Lower(name), Lower(h[0].0), Lower(h[j].0));
        }
      }
    } else {
      BelowTotal(Lower(name), Lower(h[0].0));
      AssignOrdered(h[1..], name, value);
      AssignNames(h[1..], name, value);
      var rest := Assign(h[1..], name, value);
      forall i | 0 <= i < |rest| ensures NameLess(h[0].0, rest[i].0) {
        if !SameName(rest[i].0, name) {
          var j :| 0 <= j < |h[1..]| && rest[i].0 == h[1..][j].0;
          assert NameLess(h[0].0, h[j + 1].0);
        }
      }
    }
  }

  // Assigning the headers of an ordered list one after the other rebuilds the list.
  lemma {:induction false} AssignLast(h: Headers, name: string, value: string)
    requires Ordered(h + [(name, value)])
    ensures Assign(h, name, value) == h + [(name, value)]
  {
    if h != [] {
      var all := h + [(name, value)];
      assert all[0] == h[0] && all[|h|] == (name, value);
      assert NameLess(all[0].0, all[|h|].0);
      BelowTotal(Lower(h[0].0), Lower(name));
      assert h[1..] + [(name, value)] == all[1..];
      AssignLast(h[1..], name, value);
    }
  }
}
