/** What several modules share. */
module Common {

  datatype Option<+T> = None | Some(value: T)

  /** The place of x in s. */
  function Index<T(==)>(s: seq<T>, x: T): (i: nat)
    requires x in s
    ensures i < |s| && s[i] == x
    ensures forall j :: 0 <= j < i ==> s[j] != x
  {
    if s[0] == x then 0 else 1 + Index(s[1..], x)
  }

  ghost predicate Distinct<T>(s: seq<T>) {
    forall i, j :: 0 <= i < j < |s| ==> s[i] != s[j]
  }

  function Remove<T>(s: seq<T>, i: nat): (r: seq<T>)
    requires i < |s|
    ensures |r| == |s| - 1
    ensures forall j :: 0 <= j < i ==> r[j] == s[j]
    ensures forall j :: i <= j < |r| ==> r[j] == s[j + 1]
  {
    s[..i] + s[i + 1..]
  }

  lemma DistinctRemove<T>(s: seq<T>, i: nat)
    requires i < |s| && Distinct(s)
    ensures Distinct(Remove(s, i))
    ensures forall x :: x in Remove(s, i) <==> x in s && x != s[i]
  {
    var r := Remove(s, i);
    forall x | x in s && x != s[i]
      ensures x in r
    {
      var j :| 0 <= j < |s| && s[j] == x;
      if j < i { assert r[j] == x; } else { assert r[j - 1] == x; }
    }
  }

  lemma RemoveParts<T>(s: seq<T>, i: nat)
    requires i < |s|
    ensures s == s[..i] + [s[i]] + s[i + 1..] && Remove(s, i) == s[..i] + s[i + 1..]
    ensures multiset(Remove(s, i)) == multiset(s) - multiset{s[i]}
  {
    assert s == s[..i] + [s[i]] + s[i + 1..];
  }
}
