/** Strings in lexicographic order, and the ascending sequence of a set of them. */
module Orders {

  predicate Less(a: string, b: string) {
    |b| > 0 && (|a| == 0 || a[0] < b[0] || (a[0] == b[0] && Less(a[1..], b[1..])))
  }

  lemma Total(a: string, b: string)
    ensures Less(a, b) || a == b || Less(b, a)
  {
    if |a| > 0 && |b| > 0 && a[0] == b[0] {
      Total(a[1..], b[1..]);
    }
  }

  lemma Transitive(a: string, b: string, c: string)
    requires Less(a, b) && Less(b, c)
    ensures Less(a, c)
  {
    if |a| > 0 && a[0] == b[0] && b[0] == c[0] {
      Transitive(a[1..], b[1..], c[1..]);
    }
  }

  lemma Irreflexive(a: string)
    ensures !Less(a, a)
  {
    if |a| > 0 {
      Irreflexive(a[1..]);
    }
  }

  ghost predicate Ascending(s: seq<string>) {
    forall i, j :: 0 <= i < j < |s| ==> Less(s[i], s[j])
  }

  /** There is one ascending sequence of a set. */
  lemma {:induction false} AscendingUnique(s: seq<string>, t: seq<string>)
    requires Ascending(s) && Ascending(t) && forall x :: x in s <==> x in t
    ensures s == t
  {
    if s == [] {
      Nothing(t);
    } else if t == [] {
      Nothing(s);
    } else {
      SameHead(s, t);
      forall x
        ensures x in s[1..] <==> x in t[1..]
      {
        Tail(s, x);
        Tail(t, x);
      }
      AscendingUnique(s[1..], t[1..]);
    }
  }

  lemma Nothing(s: seq<string>)
    ensures s == [] || s[0] in s
  {
  }

  lemma Tail(s: seq<string>, x: string)
    requires Ascending(s) && s != []
    ensures x in s[1..] <==> x in s && x != s[0]
  {
    Irreflexive(s[0]);
  }

  lemma SameHead(s: seq<string>, t: seq<string>)
    requires Ascending(s) && Ascending(t) && s != [] && t != [] && forall x :: x in s <==> x in t
    ensures s[0] == t[0]
  {
    Least(s, t[0]);
    Least(t, s[0]);
    if s[0] != t[0] {
      Transitive(s[0], t[0], s[0]);
      Irreflexive(s[0]);
    }
  }

  lemma Least(s: seq<string>, x: string)
    requires Ascending(s) && x in s
    ensures s[0] == x || Less(s[0], x)
  {
  }

  /** x takes its place in an ascending sequence that does not have it. */
  function Insert(s: seq<string>, x: string): (r: seq<string>)
    ensures forall y :: y in r <==> y in s || y == x
  {
    if s == [] then [x]
    else if Less(x, s[0]) then [x] + s
    else
      assert s == [s[0]] + s[1..];
      [s[0]] + Insert(s[1..], x)
  }

  lemma {:induction false} InsertAscending(s: seq<string>, x: string)
    requires Ascending(s) && x !in s
    ensures Ascending(Insert(s, x))
  {
    if s != [] {
      if Less(x, s[0]) {
        forall j | 0 <= j < |s|
          ensures Less(x, s[j])
        {
          if j > 0 {
            Transitive(x, s[0], s[j]);
          }
        }
      } else {
        Total(x, s[0]);
        InsertAscending(s[1..], x);
        var r := Insert(s[1..], x);
        forall j | 0 <= j < |r|
          ensures Less(s[0], r[j])
        {
          assert r[j] in r;
        }
      }
    }
  }

  /** slices.Sorted(maps.Keys(names)). */
  method SortedNames(names: set<string>) returns (r: seq<string>)
    ensures Ascending(r) && forall x :: x in r <==> x in names
  {
    r := [];
    var rest := names;
    while rest != {}
      invariant rest <= names && Ascending(r) && forall x :: x in r <==> x in names && x !in rest
      decreases rest
    {
      var x :| x in rest;
      InsertAscending(r, x);
      r := Insert(r, x);
      rest := rest - {x};
    }
  }
}
