/**
 The repair of the temporal backbone after an import (cmd/memory/import.go):
 per source, the two-way chain over the insights that were there is mended so
 that it runs over the merged timeline. Temporal edges are keyed by their two
 ends, as the edge table's key has them: an insert replaces.
 */
module ImportRepair {
  import opened Common

  type Id = string

  /** A temporal edge is of the backbone, or one of proximity. */
  datatype Edge = Precedes | Succeeds | Proximity

  type Edges = map<(Id, Id), Edge>

  function Get(edges: Edges, a: Id, b: Id): Option<Edge> {
    if (a, b) in edges then Some(edges[(a, b)]) else None
  }

  // ---- chains ----

  /** b comes right after a in t. */
  ghost predicate Linked(t: seq<Id>, a: Id, b: Id) {
    exists i {:trigger t[i]} :: 0 <= i < |t| - 1 && t[i] == a && t[i + 1] == b
  }

  /** The edge from a to b in the two-way chain over t. */
  ghost function ChainEdge(t: seq<Id>, a: Id, b: Id): Option<Edge> {
    if Linked(t, a, b) then Some(Precedes)
    else if Linked(t, b, a) then Some(Succeeds)
    else None
  }

  /** The edges among the insights of t are exactly the two-way chain over s. */
  ghost predicate IsChain(edges: Edges, t: seq<Id>, s: seq<Id>) {
    forall a, b :: a in t && b in t ==> Get(edges, a, b) == ChainEdge(s, a, b)
  }

  /** The insights that were there before the import. */
  function Kept(t: seq<Id>, imported: set<Id>): seq<Id> {
    if t == [] then [] else (if t[0] in imported then [] else [t[0]]) + Kept(t[1..], imported)
  }

  // ---- what the repair deletes and what it inserts ----

  /** Places i < j that were there before, with only imported insights between them. */
  predicate Neighbours(t: seq<Id>, imported: set<Id>, i: int, j: int) {
    && 0 <= i < j < |t| && t[i] !in imported && t[j] !in imported
    && forall m :: i < m < j ==> t[m] in imported
  }

  /** The imported insight at k lies between the neighbours a and b. */
  ghost predicate SplitAt(t: seq<Id>, imported: set<Id>, k: nat, a: Id, b: Id) {
    exists i, j :: 0 <= i < k < j < |t| && Neighbours(t, imported, i, j) && t[i] == a && t[j] == b
  }

  /** The import put something between a and b. */
  ghost predicate Split(t: seq<Id>, imported: set<Id>, a: Id, b: Id) {
    exists k :: 0 <= k < |t| && SplitAt(t, imported, k, a, b)
  }

  /** b comes right after a, and one of them is imported. */
  ghost predicate Joined(t: seq<Id>, imported: set<Id>, a: Id, b: Id) {
    Linked(t, a, b) && (a in imported || b in imported)
  }

  /** The edge from a to b after the repair of t. */
  ghost function Repaired(edges: Edges, t: seq<Id>, imported: set<Id>, a: Id, b: Id): Option<Edge> {
    if Joined(t, imported, a, b) then Some(Precedes)
    else if Joined(t, imported, b, a) then Some(Succeeds)
    else if Split(t, imported, a, b) || Split(t, imported, b, a) then None
    else Get(edges, a, b)
  }

  /** Who is touched: the imported, both ends of a split pair, both ends of a new link. */
  ghost predicate Touches(t: seq<Id>, imported: set<Id>, x: Id) {
    || (x in t && x in imported)
    || (exists y :: Split(t, imported, x, y) || Split(t, imported, y, x))
    || (exists y :: Joined(t, imported, x, y) || Joined(t, imported, y, x))
  }

  /** How many new links there are among the first n insights of t. */
  function Joins(t: seq<Id>, imported: set<Id>, n: nat): nat
    requires n < |t| || n == 0
  {
    if n == 0 then 0
    else Joins(t, imported, n - 1) + if t[n - 1] in imported || t[n] in imported then 1 else 0
  }

  // ---- the repair ----

  class Store {
    var edges: Edges

    method DeleteEdge(a: Id, b: Id)
      modifies this
      ensures edges == old(edges) - {(a, b)}
    {
      edges := edges - {(a, b)};
    }

    method InsertEdge(a: Id, b: Id, edge: Edge)
      modifies this
      ensures edges == old(edges)[(a, b) := edge]
    {
      edges := edges[(a, b) := edge];
    }
  }

  /** nearestNonImportedBefore, as a place. */
  method NearestBefore(t: seq<Id>, imported: set<Id>, k: nat) returns (r: Option<nat>)
    requires k < |t|
    ensures r.None? ==> forall m :: 0 <= m < k ==> t[m] in imported
    ensures r.Some? ==> r.value < k && t[r.value] !in imported && forall m :: r.value < m < k ==> t[m] in imported
  {
    var i := k - 1;
    while i >= 0
      invariant -1 <= i < k && forall m :: i < m < k ==> t[m] in imported
    {
      if t[i] !in imported {
        return Some(i);
      }
      i := i - 1;
    }
    return None;
  }

  /** nearestNonImportedAfter, as a place. */
  method NearestAfter(t: seq<Id>, imported: set<Id>, k: nat) returns (r: Option<nat>)
    requires k < |t|
    ensures r.None? ==> forall m :: k < m < |t| ==> t[m] in imported
    ensures r.Some? ==> k < r.value < |t| && t[r.value] !in imported && forall m :: k < m < r.value ==> t[m] in imported
  {
    var i := k + 1;
    while i < |t|
      invariant k < i <= |t| && forall m :: k < m < i ==> t[m] in imported
    {
      if t[i] !in imported {
        return Some(i);
      }
      i := i + 1;
    }
    return None;
  }

  ghost predicate SplitEnd(t: seq<Id>, imported: set<Id>, n: nat, x: Id) {
    exists y :: SplitBefore(t, imported, n, x, y) || SplitBefore(t, imported, n, y, x)
  }

  ghost predicate JoinedEnd(t: seq<Id>, imported: set<Id>, n: nat, x: Id) {
    exists y :: JoinedBefore(t, imported, n, x, y) || JoinedBefore(t, imported, n, y, x)
  }

  lemma SplitEnds(t: seq<Id>, imported: set<Id>, k: nat, i: Option<nat>, j: Option<nat>)
    requires k < |t| && (i.Some? ==> i.value < |t|) && (j.Some? ==> j.value < |t|)
    requires forall a, b :: SplitAt(t, imported, k, a, b) <==> i.Some? && j.Some? && t[i.value] == a && t[j.value] == b
    ensures forall x :: SplitEnd(t, imported, k + 1, x) <==>
              SplitEnd(t, imported, k, x) || (i.Some? && j.Some? && (x == t[i.value] || x == t[j.value]))
  {
    hide SplitAt;
    forall x
      ensures SplitEnd(t, imported, k + 1, x) <==>
              SplitEnd(t, imported, k, x) || (i.Some? && j.Some? && (x == t[i.value] || x == t[j.value]))
    {
      assert forall a, b :: SplitBefore(t, imported, k + 1, a, b) <==>
          SplitBefore(t, imported, k, a, b) || SplitAt(t, imported, k, a, b);
      if SplitEnd(t, imported, k, x) {
        var y :| SplitBefore(t, imported, k, x, y) || SplitBefore(t, imported, k, y, x);
        assert SplitBefore(t, imported, k + 1, x, y) || SplitBefore(t, imported, k + 1, y, x);
      }
      if i.Some? && j.Some? {
        assert SplitAt(t, imported, k, t[i.value], t[j.value]);
        assert SplitBefore(t, imported, k + 1, t[i.value], t[j.value]);
      }
      if SplitEnd(t, imported, k + 1, x) {
        var y :| SplitBefore(t, imported, k + 1, x, y) || SplitBefore(t, imported, k + 1, y, x);
        assert SplitBefore(t, imported, k, x, y) || SplitAt(t, imported, k, x, y)
            || SplitBefore(t, imported, k, y, x) || SplitAt(t, imported, k, y, x);
      }
    }
  }

  lemma JoinedEnds(t: seq<Id>, imported: set<Id>, i: nat)
    requires i < |t| - 1
    requires forall a, b :: JoinedBefore(t, imported, i + 1, a, b) <==>
               || JoinedBefore(t, imported, i, a, b)
               || (t[i] == a && t[i + 1] == b && (a in imported || b in imported))
    ensures forall x :: JoinedEnd(t, imported, i + 1, x) <==>
              || JoinedEnd(t, imported, i, x)
              || ((x == t[i] || x == t[i + 1]) && (t[i] in imported || t[i + 1] in imported))
  {
    forall x
      ensures JoinedEnd(t, imported, i + 1, x) <==>
              || JoinedEnd(t, imported, i, x)
              || ((x == t[i] || x == t[i + 1]) && (t[i] in imported || t[i + 1] in imported))
    {
      if JoinedEnd(t, imported, i, x) {
        var y :| JoinedBefore(t, imported, i, x, y) || JoinedBefore(t, imported, i, y, x);
        assert JoinedBefore(t, imported, i + 1, x, y) || JoinedBefore(t, imported, i + 1, y, x);
      }
      if t[i] in imported || t[i + 1] in imported {
        assert JoinedBefore(t, imported, i + 1, t[i], t[i + 1]);
      }
      if JoinedEnd(t, imported, i + 1, x) {
        var y :| JoinedBefore(t, imported, i + 1, x, y) || JoinedBefore(t, imported, i + 1, y, x);
        assert JoinedBefore(t, imported, i, x, y) || JoinedBefore(t, imported, i, y, x) || x == t[i] || x == t[i + 1];
      }
    }
  }

  ghost predicate SplitBefore(t: seq<Id>, imported: set<Id>, n: nat, a: Id, b: Id) {
    exists k :: 0 <= k < n && k < |t| && SplitAt(t, imported, k, a, b)
  }

  /** The first loop: the links an imported insight splits are deleted. */
  method DeleteSplit(store: Store, t: seq<Id>, imported: set<Id>, touched: set<Id>) returns (touched': set<Id>)
    requires Distinct(t)
    modifies store
    ensures forall a, b :: Get(store.edges, a, b) ==
              if Split(t, imported, a, b) || Split(t, imported, b, a) then None else Get(old(store.edges), a, b)
    ensures forall x :: x in touched' <==>
              || x in touched || (x in t && x in imported)
              || exists y :: Split(t, imported, x, y) || Split(t, imported, y, x)
  {
    hide SplitAt, Neighbours, SplitEnd;
    touched' := touched;
    assert forall x :: !SplitEnd(t, imported, 0, x) by { NoneSplit(t, imported); }
    var k := 0;
    while k < |t|
      invariant k <= |t|
      invariant forall a, b :: Get(store.edges, a, b) ==
                  if SplitBefore(t, imported, k, a, b) || SplitBefore(t, imported, k, b, a)
                      then None else Get(old(store.edges), a, b)
      invariant forall x :: x in touched' <==>
                  || x in touched || (x in t[..k] && x in imported)
                  || SplitEnd(t, imported, k, x)
    {
      assert forall a, b :: SplitBefore(t, imported, k + 1, a, b) <==>
          SplitBefore(t, imported, k, a, b) || SplitAt(t, imported, k, a, b);
      assert t[..k + 1] == t[..k] + [t[k]];
      ghost var before := store.edges;
      ghost var gone: set<(Id, Id)> := {};
      if t[k] in imported {
        touched' := touched' + {t[k]};
        var i := NearestBefore(t, imported, k);
        var j := NearestAfter(t, imported, k);
        SplitHere(t, imported, k, i, j);
        SplitEnds(t, imported, k, i, j);
        if i.Some? && j.Some? {
          store.DeleteEdge(t[i.value], t[j.value]);
          store.DeleteEdge(t[j.value], t[i.value]);
          touched' := touched' + {t[i.value], t[j.value]};
          gone := {(t[i.value], t[j.value]), (t[j.value], t[i.value])};
        }
      } else {
        NoSplit(t, imported, k);
        SplitEnds(t, imported, k, None, None);
      }
      forall a, b
        ensures Get(store.edges, a, b) ==
                if SplitBefore(t, imported, k + 1, a, b) || SplitBefore(t, imported, k + 1, b, a)
                    then None else Get(old(store.edges), a, b)
      {
        assert SplitAt(t, imported, k, a, b) || SplitAt(t, imported, k, b, a) <==> (a, b) in gone;
        assert Get(before, a, b) ==
               if SplitBefore(t, imported, k, a, b) || SplitBefore(t, imported, k, b, a)
                   then None else Get(old(store.edges), a, b);
        assert Get(store.edges, a, b) == if (a, b) in gone then None else Get(before, a, b);
      }
      k := k + 1;
    }
    assert t[..k] == t;
    SplitEndAll(t, imported);
    assert forall a, b :: Split(t, imported, a, b) <==> SplitBefore(t, imported, k, a, b);
  }

  lemma NoneSplit(t: seq<Id>, imported: set<Id>)
    ensures forall x :: !SplitEnd(t, imported, 0, x)
  {
  }

  lemma SplitEndAll(t: seq<Id>, imported: set<Id>)
    ensures forall x :: SplitEnd(t, imported, |t|, x) <==>
              exists y :: Split(t, imported, x, y) || Split(t, imported, y, x)
  {
    hide SplitAt;
    assert forall a, b :: Split(t, imported, a, b) <==> SplitBefore(t, imported, |t|, a, b);
  }

  lemma NoSplit(t: seq<Id>, imported: set<Id>, k: nat)
    requires k < |t| && t[k] !in imported
    ensures forall a, b :: !SplitAt(t, imported, k, a, b)
  {
  }

  lemma SplitHere(t: seq<Id>, imported: set<Id>, k: nat, i: Option<nat>, j: Option<nat>)
    requires k < |t| && t[k] in imported
    requires i.None? ==> forall m :: 0 <= m < k ==> t[m] in imported
    requires i.Some? ==> i.value < k && t[i.value] !in imported && forall m :: i.value < m < k ==> t[m] in imported
    requires j.None? ==> forall m :: k < m < |t| ==> t[m] in imported
    requires j.Some? ==>
               k < j.value < |t| && t[j.value] !in imported && forall m :: k < m < j.value ==> t[m] in imported
    ensures forall a, b :: SplitAt(t, imported, k, a, b) <==> i.Some? && j.Some? && t[i.value] == a && t[j.value] == b
  {
    if i.Some? && j.Some? {
      assert Neighbours(t, imported, i.value, j.value);
    }
    forall a, b | SplitAt(t, imported, k, a, b)
      ensures i.Some? && j.Some? && t[i.value] == a && t[j.value] == b
    {
      var i', j' :| 0 <= i' < k < j' < |t| && Neighbours(t, imported, i', j') && t[i'] == a && t[j'] == b;
      assert i.Some? && j.Some?;
      assert i' == i.value;
      assert j' == j.value;
    }
  }

  ghost predicate JoinedBefore(t: seq<Id>, imported: set<Id>, n: nat, a: Id, b: Id) {
    exists i {:trigger t[i]} ::
        0 <= i < n && i + 1 < |t| && t[i] == a && t[i + 1] == b && (a in imported || b in imported)
  }

  /** The second loop: consecutive insights one of which is imported are linked both ways. */
  method InsertJoined(store: Store, t: seq<Id>, imported: set<Id>, touched: set<Id>, inserted: nat)
    returns (touched': set<Id>, inserted': nat)
    requires Distinct(t) && t != []
    modifies store
    ensures forall a, b :: Get(store.edges, a, b) ==
              if Joined(t, imported, a, b) then Some(Precedes)
              else if Joined(t, imported, b, a) then Some(Succeeds)
              else Get(old(store.edges), a, b)
    ensures forall x :: x in touched' <==>
              x in touched || exists y :: Joined(t, imported, x, y) || Joined(t, imported, y, x)
    ensures inserted' == inserted + 2 * Joins(t, imported, |t| - 1)
  {
    hide JoinedBefore, JoinedEnd;
    touched', inserted' := touched, inserted;
    NoneJoined(t, imported);
    var i := 0;
    while i < |t| - 1
      invariant i <= |t| - 1 && inserted' == inserted + 2 * Joins(t, imported, i)
      invariant forall a, b :: Get(store.edges, a, b) ==
                  if JoinedBefore(t, imported, i, a, b) then Some(Precedes)
                  else if JoinedBefore(t, imported, i, b, a) then Some(Succeeds)
                  else Get(old(store.edges), a, b)
      invariant forall x :: x in touched' <==>
                  x in touched || JoinedEnd(t, imported, i, x)
    {
      var prev, next := t[i], t[i + 1];
      JoinHere(t, imported, i);
      JoinedEnds(t, imported, i);
      ghost var before := store.edges;
      if prev in imported || next in imported {
        store.InsertEdge(prev, next, Precedes);
        store.InsertEdge(next, prev, Succeeds);
        inserted' := inserted' + 2;
        touched' := touched' + {prev, next};
      }
      forall a, b
        ensures Get(store.edges, a, b) ==
                if JoinedBefore(t, imported, i + 1, a, b) then Some(Precedes)
                else if JoinedBefore(t, imported, i + 1, b, a) then Some(Succeeds)
                else Get(old(store.edges), a, b)
      {
        assert Get(before, a, b) == if JoinedBefore(t, imported, i, a, b) then Some(Precedes)
                                    else if JoinedBefore(t, imported, i, b, a) then Some(Succeeds)
                                    else Get(old(store.edges), a, b);
      }
      i := i + 1;
    }
    AllJoined(t, imported, i);
  }

  lemma NoneJoined(t: seq<Id>, imported: set<Id>)
    ensures forall a, b :: !JoinedBefore(t, imported, 0, a, b)
    ensures forall x :: !JoinedEnd(t, imported, 0, x)
  {
  }

  lemma JoinHere(t: seq<Id>, imported: set<Id>, i: nat)
    requires Distinct(t) && i < |t| - 1
    ensures forall a, b :: JoinedBefore(t, imported, i + 1, a, b) <==>
              || JoinedBefore(t, imported, i, a, b)
              || (t[i] == a && t[i + 1] == b && (a in imported || b in imported))
    ensures !JoinedBefore(t, imported, i, t[i + 1], t[i])
    ensures !JoinedBefore(t, imported, i, t[i], t[i + 1])
  {
    forall a, b
      ensures JoinedBefore(t, imported, i + 1, a, b) <==>
              || JoinedBefore(t, imported, i, a, b)
              || (t[i] == a && t[i + 1] == b && (a in imported || b in imported))
    {
      if JoinedBefore(t, imported, i, a, b) {
        var j :| 0 <= j < i && j + 1 < |t| && t[j] == a && t[j + 1] == b && (a in imported || b in imported);
        assert t[j] == a;
      }
    }
  }

  lemma AllJoined(t: seq<Id>, imported: set<Id>, n: nat)
    requires n + 1 == |t|
    ensures forall a, b :: JoinedBefore(t, imported, n, a, b) <==> Joined(t, imported, a, b)
    ensures forall x :: JoinedEnd(t, imported, n, x) <==>
              exists y :: Joined(t, imported, x, y) || Joined(t, imported, y, x)
  {
    forall a, b
      ensures JoinedBefore(t, imported, n, a, b) <==> Joined(t, imported, a, b)
    {
      if Joined(t, imported, a, b) {
        var i :| 0 <= i < |t| - 1 && t[i] == a && t[i + 1] == b;
        assert t[i] == a;
      }
    }
    assert forall x, y {:trigger JoinedBefore(t, imported, n, x, y)} {:trigger Joined(t, imported, x, y)} ::
        JoinedBefore(t, imported, n, x, y) <==> Joined(t, imported, x, y);
  }

  /** The repair of one source. */
  method RepairSource(store: Store, t: seq<Id>, imported: set<Id>, touched: set<Id>, inserted: nat)
    returns (touched': set<Id>, inserted': nat)
    requires Distinct(t)
    modifies store
    ensures forall a, b :: Get(store.edges, a, b) == Repaired(old(store.edges), t, imported, a, b)
    ensures forall x :: x in touched' <==> x in touched || Touches(t, imported, x)
    ensures inserted' == inserted + Inserts(t, imported)
  {
    hide Split, Joined;
    if t == [] {
      Nobody(t, imported);
      return touched, inserted;
    }
    var touched1 := DeleteSplit(store, t, imported, touched);
    touched', inserted' := InsertJoined(store, t, imported, touched1, inserted);
  }

  lemma Nobody(t: seq<Id>, imported: set<Id>)
    requires t == []
    ensures forall a, b :: !Split(t, imported, a, b) && !Joined(t, imported, a, b)
  {
  }

  /** The gap between two insights of the old chain is closed, or split by the import. */
  lemma SplitOrAdjacent(t: seq<Id>, imported: set<Id>, i: nat, j: nat)
    requires Neighbours(t, imported, i, j)
    ensures j == i + 1 || Split(t, imported, t[i], t[j])
  {
    if j > i + 1 {
      assert SplitAt(t, imported, i + 1, t[i], t[j]);
    }
  }

  lemma SplitIs(t: seq<Id>, imported: set<Id>, a: Id, b: Id)
    requires Distinct(t) && Split(t, imported, a, b)
    ensures a in t && b in t && a !in imported && b !in imported && !Linked(t, a, b) && !Linked(t, b, a)
    ensures exists i, j :: Neighbours(t, imported, i, j) && t[i] == a && t[j] == b
  {
    var k :| 0 <= k < |t| && SplitAt(t, imported, k, a, b);
    var i, j :| 0 <= i < k < j < |t| && Neighbours(t, imported, i, j) && t[i] == a && t[j] == b;
  }

  lemma LinkedOnce(t: seq<Id>, a: Id, b: Id)
    requires Distinct(t) && Linked(t, a, b)
    ensures a in t && b in t && a != b && !Linked(t, b, a)
  {
  }

  // ---- the repair is exact ----

  /** A pair of insights whose edge the repair leaves alone. */
  ghost predicate LeftAlone(t: seq<Id>, imported: set<Id>, a: Id, b: Id) {
    && !Joined(t, imported, a, b) && !Joined(t, imported, b, a)
    && !Split(t, imported, a, b) && !Split(t, imported, b, a)
  }

  /** The edges among the insights of t are as the repair of t leaves them; other edges may be anything. */
  ghost predicate RepairedAmong(edges: Edges, edges': Edges, t: seq<Id>, imported: set<Id>) {
    forall a, b :: a in t && b in t ==> Get(edges', a, b) == Repaired(edges, t, imported, a, b)
  }

  /** The pairs the repair leaves alone have the edges of the chain over the merged timeline. */
  ghost predicate FitsAlready(edges: Edges, t: seq<Id>, imported: set<Id>) {
    forall a, b :: a in t && b in t && LeftAlone(t, imported, a, b) ==> Get(edges, a, b) == ChainEdge(t, a, b)
  }

  /**
   Whatever the edges were, the repair leaves exactly the two-way chain over
   the merged timeline if and only if the pairs it leaves alone, those with no
   imported insight at either end or between them, already had it.
   */
  lemma ExactIff(edges: Edges, edges': Edges, t: seq<Id>, imported: set<Id>)
    requires Distinct(t) && RepairedAmong(edges, edges', t, imported)
    ensures IsChain(edges', t, t) <==> FitsAlready(edges, t, imported)
  {
    hide Split, Linked;
    forall a, b | a in t && b in t && !LeftAlone(t, imported, a, b)
      ensures Get(edges', a, b) == ChainEdge(t, a, b)
    {
      if Joined(t, imported, b, a) {
        LinkedOnce(t, b, a);
      } else if !Joined(t, imported, a, b) {
        if Split(t, imported, a, b) { SplitIs(t, imported, a, b); } else { SplitIs(t, imported, b, a); }
      }
    }
    if IsChain(edges', t, t) {
      forall a, b | a in t && b in t && LeftAlone(t, imported, a, b)
        ensures Get(edges, a, b) == ChainEdge(t, a, b)
      {
        assert Get(edges', a, b) == Get(edges, a, b);
      }
    }
  }

  /** Consecutive among the insights kept: neighbours in the timeline. */
  lemma {:induction false} KeptLinks(t: seq<Id>, imported: set<Id>, a: Id, b: Id)
    ensures Linked(Kept(t, imported), a, b) <==> exists i, j :: Neighbours(t, imported, i, j) && t[i] == a && t[j] == b
  {
    hide Linked;
    if t == [] {
      NoneKept(t, imported, a, b);
    } else {
      var u, s := t[1..], Kept(t[1..], imported);
      KeptLinks(u, imported, a, b);
      LaterNeighbours(t, imported, a, b);
      FirstKept(u, imported);
      if t[0] in imported {
        assert [] + s == s;
        NotFirst(t, imported);
      } else {
        LinkedFirst(t[0], s, a, b);
        FirstNeighbours(t, imported, a, b);
      }
    }
  }

  lemma NoneKept(t: seq<Id>, imported: set<Id>, a: Id, b: Id)
    requires t == []
    ensures !Linked(Kept(t, imported), a, b) && forall i, j :: !Neighbours(t, imported, i, j)
  {
  }

  lemma LinkedFirst(x: Id, s: seq<Id>, a: Id, b: Id)
    ensures Linked([x] + s, a, b) <==> Linked(s, a, b) || (s != [] && x == a && s[0] == b)
  {
    var r := [x] + s;
    if Linked(s, a, b) {
      var i :| 0 <= i < |s| - 1 && s[i] == a && s[i + 1] == b;
      assert r[i + 1] == a && r[i + 1 + 1] == b;
    }
    if s != [] && x == a && s[0] == b {
      assert r[0] == a && r[0 + 1] == b;
    }
    if Linked(r, a, b) {
      var i :| 0 <= i < |r| - 1 && r[i] == a && r[i + 1] == b;
      if i > 0 {
        assert s[i - 1] == a && s[i - 1 + 1] == b;
      }
    }
  }

  /** The first insight kept, if any, with its place. */
  lemma {:induction false} FirstKept(t: seq<Id>, imported: set<Id>)
    ensures Kept(t, imported) == [] ==> forall m :: 0 <= m < |t| ==> t[m] in imported
    ensures Kept(t, imported) != [] ==>
              exists j :: && 0 <= j < |t| && t[j] == Kept(t, imported)[0] && t[j] !in imported
                          && forall m :: 0 <= m < j ==> t[m] in imported
  {
    if t != [] {
      FirstKept(t[1..], imported);
      if t[0] in imported {
        if Kept(t[1..], imported) != [] {
          var j :| 0 <= j < |t[1..]| && t[1..][j] == Kept(t[1..], imported)[0] && t[1..][j] !in imported
                   && forall m :: 0 <= m < j ==> t[1..][m] in imported;
          assert t[j + 1] == Kept(t, imported)[0];
          forall m | 0 <= m < j + 1
            ensures t[m] in imported
          {
            assert m > 0 ==> t[m] == t[1..][m - 1];
          }
        } else {
          forall m | 0 <= m < |t|
            ensures t[m] in imported
          {
            assert m > 0 ==> t[m] == t[1..][m - 1];
          }
        }
      } else {
        assert t[0] == Kept(t, imported)[0];
      }
    }
  }

  lemma ShiftNeighbours(t: seq<Id>, imported: set<Id>, i: nat, j: nat)
    requires t != []
    ensures Neighbours(t[1..], imported, i, j) <==> Neighbours(t, imported, i + 1, j + 1)
  {
    var u := t[1..];
    if Neighbours(u, imported, i, j) {
      forall m | i + 1 < m < j + 1
        ensures t[m] in imported
      {
        assert t[m] == u[m - 1];
      }
    }
    if Neighbours(t, imported, i + 1, j + 1) {
      forall m | i < m < j
        ensures u[m] in imported
      {
        assert u[m] == t[m + 1];
      }
    }
  }

  /** Neighbours past the first place are neighbours in the rest. */
  lemma LaterNeighbours(t: seq<Id>, imported: set<Id>, a: Id, b: Id)
    requires t != []
    ensures (exists i, j :: Neighbours(t[1..], imported, i, j) && t[1..][i] == a && t[1..][j] == b) <==>
            (exists i, j :: i > 0 && Neighbours(t, imported, i, j) && t[i] == a && t[j] == b)
  {
    var u := t[1..];
    if exists i, j :: Neighbours(u, imported, i, j) && u[i] == a && u[j] == b {
      var i, j :| Neighbours(u, imported, i, j) && u[i] == a && u[j] == b;
      ShiftNeighbours(t, imported, i, j);
      assert Neighbours(t, imported, i + 1, j + 1) && t[i + 1] == a && t[j + 1] == b;
    }
    if exists i, j :: i > 0 && Neighbours(t, imported, i, j) && t[i] == a && t[j] == b {
      var i, j :| i > 0 && Neighbours(t, imported, i, j) && t[i] == a && t[j] == b;
      ShiftNeighbours(t, imported, i - 1, j - 1);
      assert Neighbours(u, imported, i - 1, j - 1) && u[i - 1] == a && u[j - 1] == b;
    }
  }

  lemma NotFirst(t: seq<Id>, imported: set<Id>)
    requires t != [] && t[0] in imported
    ensures forall j :: !Neighbours(t, imported, 0, j)
  {
  }

  /** The first insight's neighbour is the first one kept of the rest. */
  lemma FirstNeighbours(t: seq<Id>, imported: set<Id>, a: Id, b: Id)
    requires t != [] && t[0] !in imported
    ensures (exists j :: Neighbours(t, imported, 0, j) && t[0] == a && t[j] == b) <==>
            var s := Kept(t[1..], imported); s != [] && t[0] == a && s[0] == b
  {
    var u := t[1..];
    var s := Kept(u, imported);
    FirstKept(u, imported);
    if s != [] {
      var j :| 0 <= j < |u| && u[j] == s[0] && u[j] !in imported && forall m :: 0 <= m < j ==> u[m] in imported;
      assert Neighbours(t, imported, 0, j + 1) by {
        forall m | 0 < m < j + 1
          ensures t[m] in imported
        {
          assert t[m] == u[m - 1];
        }
      }
      forall j' | Neighbours(t, imported, 0, j')
        ensures j' == j + 1
      {
        assert t[j' - 1 + 1] == u[j' - 1];
      }
    } else {
      forall j' | 0 < j' < |t|
        ensures t[j'] in imported
      {
        assert t[j'] == u[j' - 1];
      }
    }
  }

  /**
   If the edges among a source's insights were exactly the two-way chain over
   those that were there before the import, then after the repair they are
   exactly the two-way chain over the merged timeline.
   */
  lemma BackboneExact(edges: Edges, edges': Edges, t: seq<Id>, imported: set<Id>)
    requires Distinct(t) && IsChain(edges, t, Kept(t, imported)) && RepairedAmong(edges, edges', t, imported)
    ensures IsChain(edges', t, t)
  {
    hide Repaired, LeftAlone;
    ExactIff(edges, edges', t, imported);
    forall a, b | a in t && b in t && LeftAlone(t, imported, a, b)
      ensures Get(edges, a, b) == ChainEdge(t, a, b)
    {
      KeptSame(t, imported, a, b);
    }
  }

  /** Of a pair the repair leaves alone, the chain over the kept and the chain over all say the same. */
  lemma KeptSame(t: seq<Id>, imported: set<Id>, a: Id, b: Id)
    requires Distinct(t) && LeftAlone(t, imported, a, b)
    ensures ChainEdge(Kept(t, imported), a, b) == ChainEdge(t, a, b)
  {
    hide Linked, Split, Kept;
    KeptSameOneWay(t, imported, a, b);
    KeptSameOneWay(t, imported, b, a);
  }

  lemma KeptSameOneWay(t: seq<Id>, imported: set<Id>, a: Id, b: Id)
    requires Distinct(t) && !Joined(t, imported, a, b) && !Split(t, imported, a, b)
    ensures Linked(Kept(t, imported), a, b) <==> Linked(t, a, b)
  {
    hide Kept, Split;
    KeptLinks(t, imported, a, b);
    if Linked(t, a, b) {
      var i :| 0 <= i < |t| - 1 && t[i] == a && t[i + 1] == b;
      assert Neighbours(t, imported, i, i + 1);
    }
    if Linked(Kept(t, imported), a, b) {
      var i, j :| Neighbours(t, imported, i, j) && t[i] == a && t[j] == b;
      SplitOrAdjacent(t, imported, i, j);
    }
  }

  /** Whoever has an edge that changed is touched. */
  lemma ChangedIsTouched(edges: Edges, t: seq<Id>, imported: set<Id>, a: Id, b: Id)
    requires Repaired(edges, t, imported, a, b) != Get(edges, a, b)
    ensures Touches(t, imported, a) && Touches(t, imported, b)
  {
  }

  /** The repair of a source touches no edge that is not among its insights. */
  lemma OthersAlone(edges: Edges, t: seq<Id>, imported: set<Id>, a: Id, b: Id)
    requires Distinct(t) && !(a in t && b in t)
    ensures Repaired(edges, t, imported, a, b) == Get(edges, a, b)
  {
    hide Linked, Split;
    if Linked(t, a, b) { LinkedOnce(t, a, b); }
    if Linked(t, b, a) { LinkedOnce(t, b, a); }
    if Split(t, imported, a, b) { SplitIs(t, imported, a, b); }
    if Split(t, imported, b, a) { SplitIs(t, imported, b, a); }
  }

  // ---- all the sources ----

  /** Every source's insights are its own. */
  ghost predicate Apart(timelines: map<string, seq<Id>>) {
    && (forall s :: s in timelines ==> Distinct(timelines[s]))
    && (forall s, r, x :: s in timelines && r in timelines && s != r && x in timelines[s] ==> x !in timelines[r])
  }

  /** How many edges the repair of one source inserts. */
  function Inserts(t: seq<Id>, imported: set<Id>): nat {
    if t == [] then 0 else 2 * Joins(t, imported, |t| - 1)
  }

  /** The same, summed over sources. */
  ghost function InsertsAll(timelines: map<string, seq<Id>>, sources: set<string>, imported: set<Id>): nat
    requires sources <= timelines.Keys
  {
    if sources == {} then 0
    else
      var s :| s in sources;
      Inserts(timelines[s], imported) + InsertsAll(timelines, sources - {s}, imported)
  }

  /** In whatever order the sources are gone through. */
  lemma {:induction false} InsertsOne(timelines: map<string, seq<Id>>, sources: set<string>, imported: set<Id>,
                                      s: string)
    requires sources <= timelines.Keys && s in sources
    ensures InsertsAll(timelines, sources, imported)
            == Inserts(timelines[s], imported) + InsertsAll(timelines, sources - {s}, imported)
    decreases sources
  {
    var r :| r in sources && InsertsAll(timelines, sources, imported)
                             == Inserts(timelines[r], imported) + InsertsAll(timelines, sources - {r}, imported);
    if r != s {
      InsertsOne(timelines, sources - {r}, imported, s);
      InsertsOne(timelines, sources - {s}, imported, r);
      assert sources - {r} - {s} == sources - {s} - {r};
    }
  }

  /** What the repair of all sources leaves, and whom it touches. */
  ghost predicate RepairedAll(edges: Edges, edges': Edges, timelines: map<string, seq<Id>>, sources: set<string>,
                              imported: set<Id>, touched: set<Id>)
    requires sources <= timelines.Keys
  {
    && (forall s :: s in sources ==> RepairedAmong(edges, edges', timelines[s], imported))
    && (forall a, b :: (forall s :: s in sources ==> !(a in timelines[s] && b in timelines[s])) ==>
        Get(edges', a, b) == Get(edges, a, b))
    && (forall x :: x in touched <==> exists s :: s in sources && Touches(timelines[s], imported, x))
  }

  /** repairImportedTemporalEdges; timelines gives each source's active insights, in order. */
  method Repair(store: Store, timelines: map<string, seq<Id>>, sources: set<string>, imported: set<Id>)
    returns (inserted: nat, touched: set<Id>)
    requires sources <= timelines.Keys && Apart(timelines)
    modifies store
    ensures imported == {} ==> store.edges == old(store.edges) && inserted == 0 && touched == {}
    ensures imported != {} ==>
              && RepairedAll(old(store.edges), store.edges, timelines, sources, imported, touched)
              && inserted == InsertsAll(timelines, sources, imported)
    // Every source's chain is exact if it was, and if and only if the pairs left alone already fit it.
    ensures forall s :: s in sources && IsChain(old(store.edges), timelines[s], Kept(timelines[s], imported)) ==>
              IsChain(store.edges, timelines[s], timelines[s])
    ensures forall s :: s in sources && imported != {} ==>
              (IsChain(store.edges, timelines[s], timelines[s]) <==>
                  FitsAlready(old(store.edges), timelines[s], imported))
    // Both ends of every edge that changed are touched.
    ensures forall a, b :: Get(store.edges, a, b) != Get(old(store.edges), a, b) ==> a in touched && b in touched
  {
    hide Repaired, Touches, IsChain, FitsAlready, Kept, Inserts;
    inserted, touched := 0, {};
    if imported == {} {
      KeptAll(timelines, sources);
      return;
    }
    var rest := sources;
    while rest != {}
      invariant rest <= sources
      invariant forall s, a, b :: s in sources && a in timelines[s] && b in timelines[s] ==>
                  Get(store.edges, a, b) == if s in rest then Get(old(store.edges), a, b)
                                            else Repaired(old(store.edges), timelines[s], imported, a, b)
      invariant forall a, b :: (forall s :: s in sources ==> !(a in timelines[s] && b in timelines[s])) ==>
                  Get(store.edges, a, b) == Get(old(store.edges), a, b)
      invariant forall x :: x in touched <==>
                exists s :: s in sources && s !in rest && Touches(timelines[s], imported, x)
      invariant inserted + InsertsAll(timelines, rest, imported) == InsertsAll(timelines, sources, imported)
      decreases rest
    {
      var source :| source in rest;
      ghost var before := store.edges;
      InsertsOne(timelines, rest, imported, source);
      touched, inserted := RepairSource(store, timelines[source], imported, touched, inserted);
      forall a, b
        ensures !(a in timelines[source] && b in timelines[source]) ==> Get(store.edges, a, b) == Get(before, a, b)
        ensures a in timelines[source] && b in timelines[source] ==>
                  Get(store.edges, a, b) == Repaired(old(store.edges), timelines[source], imported, a, b)
      {
        if a in timelines[source] && b in timelines[source] {
          SameRepair(before, old(store.edges), timelines[source], imported, a, b);
        } else {
          OthersAlone(before, timelines[source], imported, a, b);
        }
      }
      rest := rest - {source};
    }
    AllExact(old(store.edges), store.edges, timelines, sources, imported, touched);
    AllTouched(old(store.edges), store.edges, timelines, sources, imported, touched);
  }

  /** With nothing imported, the chain over what was there is the chain over everything. */
  lemma KeptAll(timelines: map<string, seq<Id>>, sources: set<string>)
    requires sources <= timelines.Keys
    ensures forall s :: s in sources ==> Kept(timelines[s], {}) == timelines[s]
  {
    forall s | s in sources
      ensures Kept(timelines[s], {}) == timelines[s]
    {
      KeptEvery(timelines[s]);
    }
  }

  lemma {:induction false} KeptEvery(t: seq<Id>)
    ensures Kept(t, {}) == t
  {
    if t != [] {
      KeptEvery(t[1..]);
    }
  }

  /** The chains of all sources at once. */
  lemma AllExact(edges: Edges, edges': Edges, timelines: map<string, seq<Id>>, sources: set<string>,
                 imported: set<Id>, touched: set<Id>)
    requires sources <= timelines.Keys && Apart(timelines)
    requires RepairedAll(edges, edges', timelines, sources, imported, touched)
    ensures forall s :: s in sources && IsChain(edges, timelines[s], Kept(timelines[s], imported)) ==>
              IsChain(edges', timelines[s], timelines[s])
    ensures forall s :: s in sources ==>
              (IsChain(edges', timelines[s], timelines[s]) <==> FitsAlready(edges, timelines[s], imported))
  {
    hide Repaired, Touches, IsChain, FitsAlready, Kept, RepairedAmong;
    forall s | s in sources
      ensures IsChain(edges, timelines[s], Kept(timelines[s], imported)) ==> IsChain(edges', timelines[s], timelines[s])
      ensures IsChain(edges', timelines[s], timelines[s]) <==> FitsAlready(edges, timelines[s], imported)
    {
      ExactIff(edges, edges', timelines[s], imported);
      if IsChain(edges, timelines[s], Kept(timelines[s], imported)) {
        BackboneExact(edges, edges', timelines[s], imported);
      }
    }
  }

  /** Whoever has an edge of the store that changed is touched. */
  lemma AllTouched(edges: Edges, edges': Edges, timelines: map<string, seq<Id>>, sources: set<string>,
                   imported: set<Id>, touched: set<Id>)
    requires sources <= timelines.Keys && RepairedAll(edges, edges', timelines, sources, imported, touched)
    ensures forall a, b :: Get(edges', a, b) != Get(edges, a, b) ==> a in touched && b in touched
  {
    hide Repaired, Touches;
    forall a, b | Get(edges', a, b) != Get(edges, a, b)
      ensures a in touched && b in touched
    {
      var s :| s in sources && a in timelines[s] && b in timelines[s];
      ChangedIsTouched(edges, timelines[s], imported, a, b);
    }
  }

  lemma SameRepair(edges: Edges, was: Edges, t: seq<Id>, imported: set<Id>, a: Id, b: Id)
    requires Get(edges, a, b) == Get(was, a, b)
    ensures Repaired(edges, t, imported, a, b) == Repaired(was, t, imported, a, b)
  {
  }
}
