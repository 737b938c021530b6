/**
 Which specs become a delivery, and what its identity and its seal are, with
 every rule and every constant written out.
 */
module PeerDeliveryLaws {
  import opened Common
  import opened AgencyValues
  import opened PeerDelivery

  // ---- lists without repetition ----

  lemma DistinctOnce<T>(s: seq<T>, p: nat)
    requires Distinct(s) && p < |s|
    ensures multiset(s)[s[p]] == 1
  {
    assert s == s[..p] + [s[p]] + s[p + 1..];
    assert s[p] !in s[..p] && s[p] !in s[p + 1..];
  }

  lemma DistinctPermuted<T>(a: seq<T>, b: seq<T>)
    requires multiset(a) == multiset(b) && Distinct(a)
    ensures Distinct(b)
  {
    SameMembers(a, b);
    forall i, j | 0 <= i < j < |b|
      ensures b[i] != b[j]
    {
      if b[i] == b[j] {
        Twice(b, i, j);
        assert b[i] in a;
        var p :| 0 <= p < |a| && a[p] == b[i];
        DistinctOnce(a, p);
      }
    }
  }

  /** Sorted, a list has no two equal neighbours exactly when it repeats nothing. */
  lemma NeighboursOnly<T(!new)>(s: seq<T>, less: (T, T) -> bool)
    requires TotalOrder(less)
    ensures NoNeighbours(SortBy(s, less)) <==> Distinct(s)
    ensures NoNeighbours(SortBy(s, less)) ==> StrictlyBy(SortBy(s, less), less)
  {
    hide SortBy, TotalOrder;
    var r := SortBy(s, less);
    SortSorts(s, less);
    if NoNeighbours(r) {
      Strict(r, less);
      StrictDistinct(r, less);
      DistinctPermuted(r, s);
    }
    if Distinct(s) {
      DistinctPermuted(s, r);
    }
  }

  lemma StrictDistinct<T(!new)>(r: seq<T>, less: (T, T) -> bool)
    requires TotalOrder(less) && StrictlyBy(r, less)
    ensures Distinct(r)
  {
  }

  // ---- sorting ----

  lemma InsertStep<T>(s: seq<T>, x: T, less: (T, T) -> bool)
    requires s != []
    ensures var n := |s| - 1;
            InsertBy(s, x, less) == if less(x, s[n]) then InsertBy(s[..n], x, less) + [s[n]] else s + [x]
  {
  }

  lemma {:induction false} InsertBack<T>(r: seq<T>, p: nat, less: (T, T) -> bool)
    requires StrictlyBy(r, less) && p < |r|
    ensures InsertBy(Remove(r, p), r[p], less) == r
  {
    hide StrictlyBy, InsertBy;
    var n := |r| - 1;
    var s := Remove(r, p);
    if n == 0 {
      InsertFirst(r[p], less);
      assert s == [] && r == [r[p]];
    } else {
      InsertStep(s, r[p], less);
      if p == n {
        LessAt(r, n - 1, n, less);
        assert s + [r[p]] == r;
      } else {
        PrefixStrict(r, n, less);
        InsertBack(r[..n], p, less);
        LessAt(r, p, n, less);
        assert s[..n - 1] == Remove(r[..n], p) && r[..n] + [r[n]] == r;
      }
    }
  }

  lemma InsertFirst<T>(x: T, less: (T, T) -> bool)
    ensures InsertBy([], x, less) == [x]
  {
  }

  lemma PrefixStrict<T>(r: seq<T>, n: nat, less: (T, T) -> bool)
    requires StrictlyBy(r, less) && n <= |r|
    ensures StrictlyBy(r[..n], less)
  {
  }

  lemma LessAt<T>(r: seq<T>, i: nat, j: nat, less: (T, T) -> bool)
    requires StrictlyBy(r, less) && i < j < |r|
    ensures less(r[i], r[j]) && !less(r[j], r[i])
  {
  }

  /** A strictly ascending permutation is what sorting gives. */
  lemma {:induction false} SortIs<T>(s: seq<T>, r: seq<T>, less: (T, T) -> bool)
    requires multiset(r) == multiset(s) && StrictlyBy(r, less)
    ensures SortBy(s, less) == r
  {
    hide StrictlyBy;
    SameMembers(r, s);
    if s != [] {
      var n := |s| - 1;
      assert s[n] in r;
      var p := Index(r, s[n]);
      TakesOne(s, r, p);
      RemoveStrict(r, p, less);
      SortIs(s[..n], Remove(r, p), less);
      InsertBack(r, p, less);
    }
  }

  lemma TakesOne<T>(s: seq<T>, r: seq<T>, p: nat)
    requires s != [] && p < |r| && r[p] == s[|s| - 1] && multiset(r) == multiset(s)
    ensures multiset(Remove(r, p)) == multiset(s[..|s| - 1])
  {
    var n := |s| - 1;
    assert s == s[..n] + [s[n]];
    RemoveParts(r, p);
  }

  lemma RemoveStrict<T>(r: seq<T>, p: nat, less: (T, T) -> bool)
    requires StrictlyBy(r, less) && p < |r|
    ensures StrictlyBy(Remove(r, p), less)
  {
  }

  // ---- which specs are accepted ----

  /** What a spec names: an origin effect of an Agent, a target, a kind, a depth from 1 to 32. */
  predicate Named(s: Spec) {
    && s.originEvent != NO_REF && s.sequence > 0 && s.source != "" && AgentDeclarable(s.consequence)
    && 1 <= s.targetCount <= 16 && s.targetAlias != "" && s.kind != "" && 1 <= s.depth <= 32
  }

  /** A resolution for one target, and nothing else, is a reply, with a correlation. */
  predicate RepliesRight(s: Spec) {
    if (s.consequence.ResolveCompleted? || s.consequence.ResolveDeclined? || s.consequence.ResolveUnresolved?)
       && s.targetCount == 1
    then s.correlation != NO_REF && s.inReplyTo != ZERO
    else s.inReplyTo == ZERO
  }

  /** Both times are instants of 64-bit nanoseconds, the expiry later by at most a day. */
  predicate Timed(s: Spec) {
    && -0x8000_0000_0000_0000 <= s.acceptedAt < s.expiresAt <= 0x7FFF_FFFF_FFFF_FFFF
    && s.expiresAt - s.acceptedAt <= 24 * 3600 * 1_000_000_000
  }

  /** At most 16 causes and 8 artifacts, none zero, none twice, and no Event its own cause. */
  ghost predicate ListedRight(s: Spec) {
    && |s.causation| <= 16 && NO_REF !in s.causation && s.originEvent !in s.causation && Distinct(s.causation)
    && s.correlation != s.originEvent
    && |s.artifacts| <= 8 && ZERO !in s.artifacts && Distinct(s.artifacts)
  }

  ghost predicate Deliverable(s: Spec) {
    Named(s) && RepliesRight(s) && Timed(s) && ListedRight(s)
  }

  lemma ShapeIff(s: Spec)
    ensures CheckShape(s).None? && s.depth <= MAX_DEPTH && CheckTimes(s).None? <==>
              Named(s) && RepliesRight(s) && Timed(s)
  {
  }

  lemma CausationIff(s: Spec)
    requires s.originEvent != NO_REF
    ensures Causation(s).Ok? <==>
              && |s.causation| <= 16 && NO_REF !in s.causation && s.originEvent !in s.causation
              && Distinct(s.causation) && s.correlation != s.originEvent
  {
    hide SortBy, EventLess;
    var r := SortBy(s.causation, EventLess);
    EventOrder();
    NeighboursOnly(s.causation, EventLess);
    SameMembers(r, s.causation);
    assert BadCausation(s.originEvent, r) <==> NO_REF in r || s.originEvent in r || !NoNeighbours(r);
  }

  lemma ArtifactsIff(values: seq<Digest>)
    ensures Artifacts(values).Ok? <==> |values| <= 8 && ZERO !in values && Distinct(values)
  {
    hide SortBy, DigestLess;
    var r := SortBy(values, DigestLess);
    DigestOrder();
    NeighboursOnly(values, DigestLess);
    SameMembers(r, values);
    assert BadArtifacts(r) <==> ZERO in r || !NoNeighbours(r);
  }

  /** t is s with its lists in order. */
  ghost predicate InOrder(s: Spec, t: Spec) {
    && t == s.(causation := t.causation, artifacts := t.artifacts)
    && multiset(t.causation) == multiset(s.causation) && StrictlyBy(t.causation, EventLess)
    && multiset(t.artifacts) == multiset(s.artifacts) && StrictlyBy(t.artifacts, DigestLess)
  }

  function Identity(route: Handle, s: Spec, m: Machine): Digest {
    m.hash("mnemon.peer-delivery-id.v1",
           m.idCodec.encode(IdWire(1, RefWire(s.originEvent.id, "sha256:" + s.originEvent.digest), route,
                                   s.targetAlias)))
  }

  /** What fits: the bytes of the delivery, its lists in order, under its identity. */
  ghost predicate FitsFor(route: Handle, s: Spec, t: Spec, m: Machine) {
    InOrder(s, t) && |m.codec.encode(WireOf(Identity(route, s, m), t, m.calendar))| <= 32 * 1024
  }

  /** Two lists in order of one spec are one. */
  lemma OneOrder<T(!new)>(a: seq<T>, b: seq<T>, less: (T, T) -> bool)
    requires multiset(a) == multiset(b) && StrictlyBy(a, less) && StrictlyBy(b, less)
    ensures a == b
  {
    hide SortBy, StrictlyBy;
    SortFixes(a, less);
    SortIs(a, b, less);
  }

  /** A delivery is built exactly for an enrolled route, of a deliverable spec that fits 32 KiB. */
  lemma DeliveredIff(route: Handle, s: Spec, m: Machine)
    ensures Build(route, s, m).Ok? <==> route != "" && Deliverable(s) && exists t :: FitsFor(route, s, t, m)
  {
    hide CheckShape, CheckTimes, Causation, Artifacts, WireOf, Named, RepliesRight, Timed, StrictlyBy;
    ShapeIff(s);
    if Named(s) {
      NamedOrigin(s);
      CausationIff(s);
      ArtifactsIff(s.artifacts);
      if route != "" && RepliesRight(s) && Timed(s) && Causation(s).Ok? && Artifacts(s.artifacts).Ok? {
        var t := s.(causation := Causation(s).value, artifacts := Artifacts(s.artifacts).value);
        Ordered(s, t);
        assert FitsFor(route, s, t, m) <==> Build(route, s, m).Ok?;
        forall u | FitsFor(route, s, u, m)
          ensures u == t
        {
          OneOrder(u.causation, t.causation, EventLess);
          OneOrder(u.artifacts, t.artifacts, DigestLess);
        }
      }
    }
  }

  lemma NamedOrigin(s: Spec)
    requires Named(s)
    ensures s.originEvent != NO_REF
  {
  }

  lemma Ordered(s: Spec, t: Spec)
    requires Causation(s).Ok? && Artifacts(s.artifacts).Ok?
    requires t == s.(causation := Causation(s).value, artifacts := Artifacts(s.artifacts).value)
    ensures InOrder(s, t)
  {
    hide EventLess, DigestLess, BadCausation, BadArtifacts, SortBy, StrictlyBy;
    CausationNormal(s);
    ArtifactsNormal(s.artifacts);
  }

  /** The delivery keeps its spec, its lists in order, under the identity of its origin, route and target. */
  lemma DeliverySays(route: Handle, s: Spec, m: Machine)
    requires Build(route, s, m).Ok?
    ensures var d := Build(route, s, m).value;
            && InOrder(s, d.spec) && d.id == Identity(route, s, m)
            && d.canonical == m.codec.encode(WireOf(d.id, d.spec, m.calendar))
            && d.envelope == m.hash("mnemon.peer-delivery-envelope.v1", d.canonical)
  {
    hide CheckShape, CheckTimes, WireOf, StrictlyBy, BadCausation, BadArtifacts, SortBy;
    BuiltIsNormal(route, s, m);
  }
}
