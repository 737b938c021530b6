/**
 What an authority that was built is: the bytes of exactly its spec, under
 their own digest. The printed forms are written out here field by field.
 */
module ViewLaws {
  import opened Common
  import opened Orders
  import opened AgencyValues
  import opened ViewAuthority

  // ---- the printed form of one offer ----

  function SubjectText(s: Subject): SubjectWire {
    SubjectWire(s.handle, s.handlingID, RefWire(s.head.id, "sha256:" + s.head.digest), s.fence, s.revision)
  }

  function ReferenceText(r: Reference): ReferenceWire {
    ReferenceWire(r.handle, false, r.key, Some(RefWire(r.head.id, "sha256:" + r.head.digest)))
  }

  function TargetText(t: Target): ViewTargetWire {
    ViewTargetWire(TargetWire(t.requested.self, t.requested.alias),
                   if t.destination.Local? then ResolvedWire("local", t.localPrincipal, "", "")
                   else ResolvedWire("remote", "", t.remoteRoute, t.remoteAlias))
  }

  function ArtifactText(a: Artifact): ArtifactWire {
    ArtifactWire(a.handle, "sha256:" + a.digest)
  }

  function ProvenanceText(p: Provenance): ProvenanceWire {
    ProvenanceWire(p.handle, RefWire(p.event.id, "sha256:" + p.event.digest))
  }

  // ---- the printed form of a list ----

  ghost function KeysOf<T>(offers: seq<T>, key: T -> string): seq<string> {
    seq(|offers|, i requires 0 <= i < |offers| => key(offers[i]))
  }

  /** The offers, in the strict order of their keys. */
  ghost predicate InKeyOrder<T>(offers: seq<T>, key: T -> string, ordered: seq<T>) {
    multiset(ordered) == multiset(offers) && Ascending(KeysOf(ordered, key))
  }

  ghost predicate Texts<T, W>(offers: seq<T>, text: T -> W, ws: seq<W>) {
    |ws| == |offers| && forall i :: 0 <= i < |ws| ==> ws[i] == text(offers[i])
  }

  ghost predicate Lists<T(!new), W>(offers: seq<T>, key: T -> string, text: T -> W, ws: seq<W>) {
    exists ordered :: InKeyOrder(offers, key, ordered) && Texts(ordered, text, ws)
  }

  /** The values of a map of loaded offers, in the order of its keys, are the offers. */
  lemma ValuesInOrder<T(!new)>(offers: seq<T>, check: T -> Option<Error>, key: T -> string)
    requires Load(offers, check, key).Ok?
    ensures var m := Load(offers, check, key).value;
            && InKeyOrder(offers, key, Values(m)) && |Values(m)| == |Sorted(m.Keys)|
            && forall i :: 0 <= i < |Values(m)| ==>
              && Sorted(m.Keys)[i] in m && Values(m)[i] == m[Sorted(m.Keys)[i]]
              && key(Values(m)[i]) == Sorted(m.Keys)[i] && check(Values(m)[i]).None? && Values(m)[i] in offers
  {
    hide Load;
    var m := Load(offers, check, key).value;
    LoadedValues(offers, check, key);
    SameMembers(Values(m), offers);
    var ks, vs := Sorted(m.Keys), Values(m);
    forall i | 0 <= i < |vs|
      ensures ks[i] in m && vs[i] == m[ks[i]] && key(vs[i]) == ks[i] && check(vs[i]).None? && vs[i] in offers
    {
      assert ks[i] in ks;
      assert vs[i] in vs;
    }
    assert KeysOf(vs, key) == ks;
  }

  /** What a map of loaded offers prints is the list of them. */
  lemma ListedLists<T(!new), W>(offers: seq<T>, check: T -> Option<Error>, key: T -> string, show: (string, T) -> W,
                          text: T -> W)
    requires Load(offers, check, key).Ok?
    requires forall o :: o in offers && check(o).None? ==> show(key(o), o) == text(o)
    ensures Lists(offers, key, text, Listed(Load(offers, check, key).value, show))
  {
    hide Load, InKeyOrder;
    var m := Load(offers, check, key).value;
    ValuesInOrder(offers, check, key);
    var vs, ws := Values(m), Listed(m, show);
    assert InKeyOrder(offers, key, vs) && Texts(vs, text, ws);
  }

  /** There is one such list of offers with distinct keys. */
  lemma OneList<T(!new), W>(offers: seq<T>, key: T -> string, text: T -> W, ws: seq<W>, ws': seq<W>)
    requires Lists(offers, key, text, ws) && Lists(offers, key, text, ws')
    ensures ws == ws'
  {
    var a :| InKeyOrder(offers, key, a) && Texts(a, text, ws);
    var b :| InKeyOrder(offers, key, b) && Texts(b, text, ws');
    OneOrder(key, a, b);
  }

  lemma OneOrder<T>(key: T -> string, a: seq<T>, b: seq<T>)
    requires multiset(a) == multiset(b) && Ascending(KeysOf(a, key)) && Ascending(KeysOf(b, key))
    ensures a == b
  {
    SameMembers(a, b);
    var ka, kb := KeysOf(a, key), KeysOf(b, key);
    SameKeys(key, a, b);
    SameKeys(key, b, a);
    AscendingUnique(ka, kb);
    forall i | 0 <= i < |a|
      ensures a[i] == b[i]
    {
      assert a[i] in b;
      var j :| 0 <= j < |b| && b[j] == a[i];
      assert kb[j] == ka[i] == kb[i];
      Irreflexive(ka[i]);
    }
  }

  lemma SameKeys<T>(key: T -> string, a: seq<T>, b: seq<T>)
    requires forall x :: x in a ==> x in b
    ensures forall k :: k in KeysOf(a, key) ==> k in KeysOf(b, key)
  {
    forall k | k in KeysOf(a, key)
      ensures k in KeysOf(b, key)
    {
      var i :| 0 <= i < |a| && key(a[i]) == k;
      assert a[i] in b;
      var j :| 0 <= j < |b| && b[j] == a[i];
      assert KeysOf(b, key)[j] == k;
    }
  }

  // ---- the whole wire ----

  /** The wire says what the spec says: each field, and each list the offers in the order of their keys. */
  ghost predicate Prints(s: Spec, w: ViewWire) {
    && w.version == 7 && w.principal == s.attachment.principal && w.mayInitiate == s.attachment.mayInitiate
    && w.replyTo == s.replyTo && w.pending == s.pending
    && w.replyTarget == (if s.replyTarget == Requested(false, "") then None
                         else Some(TargetWire(false, s.replyTarget.alias)))
    && w.replyDelivery == (if s.replyDelivery == ZERO then "" else "delivery:" + s.replyDelivery)
    && Lists(s.consequences, Name, Name, w.consequences)
    && Lists(s.subjects, SubjectKey, SubjectText, w.subjects)
    && Lists(s.references, ReferenceKey, ReferenceText, w.references)
    && Lists(s.targets, RequestedKey, TargetText, w.targets)
    && Lists(s.artifacts, ArtifactKey, ArtifactText, w.artifacts)
    && Lists(s.provenance, ProvenanceKey, ProvenanceText, w.provenance)
  }

  lemma WirePrints(s: Spec)
    requires LoadAll(s).Ok?
    ensures Prints(s, WireOf(s.attachment, LoadAll(s).value, s.replyTo, s.replyTarget, s.replyDelivery, s.pending))
  {
    hide Load, Listed, Lists;
    ListedLists(s.consequences, CheckConsequence, Name, ShowConsequence, Name);
    ListedLists(s.subjects, CheckSubject, SubjectKey, ShowSubject, SubjectText);
    ListedLists(s.references, CheckReference, ReferenceKey, ShowReference, ReferenceText);
    ListedLists(s.targets, TargetCheck(s.attachment), RequestedKey, ShowTarget, TargetText);
    ListedLists(s.artifacts, CheckArtifact, ArtifactKey, ShowArtifact, ArtifactText);
    ListedLists(s.provenance, CheckProvenance, ProvenanceKey, ShowProvenance, ProvenanceText);
  }

  /** A spec has one wire. */
  lemma OneWire(s: Spec, w: ViewWire, w': ViewWire)
    requires Prints(s, w) && Prints(s, w')
    ensures w == w'
  {
    hide Lists;
    OneList(s.consequences, Name, Name, w.consequences, w'.consequences);
    OneList(s.subjects, SubjectKey, SubjectText, w.subjects, w'.subjects);
    OneList(s.references, ReferenceKey, ReferenceText, w.references, w'.references);
    OneList(s.targets, RequestedKey, TargetText, w.targets, w'.targets);
    OneList(s.artifacts, ArtifactKey, ArtifactText, w.artifacts, w'.artifacts);
    OneList(s.provenance, ProvenanceKey, ProvenanceText, w.provenance, w'.provenance);
  }

  /**
   An authority that was built keeps its spec's Attachment and reply, and its
   bytes, within the bound, decode to the wire of its spec; its digest is that
   of its bytes.
   */
  lemma SealedIs(s: Spec, m: Machine)
    requires Faithful(m.codec) && Build(s, m).Ok?
    ensures var a := Build(s, m).value;
            && a.attachment == s.attachment && a.replyTo == s.replyTo && a.replyTarget == s.replyTarget
            && a.replyDelivery == s.replyDelivery && a.pending == s.pending
            && a.digest == m.sum(a.canonical) && |a.canonical| <= 16 * 1024
            && m.codec.decode(a.canonical).Some? && Prints(s, m.codec.decode(a.canonical).value)
  {
    hide LoadAll, CheckBounds, CheckReply, WireOf, Prints;
    WirePrints(s);
  }

  /** Authorities of one Attachment whose digests agree, and do not collide, are one, with the same answers. */
  lemma EqualDigestsSameAnswers(s: Spec, t: Spec, m: Machine)
    requires Faithful(m.codec) && Build(s, m).Ok? && Build(t, m).Ok? && s.attachment == t.attachment
    requires Build(s, m).value.digest == Build(t, m).value.digest
    requires var x, y := Build(s, m).value.canonical, Build(t, m).value.canonical;
             m.sum(x) == m.sum(y) ==> x == y
    ensures Build(s, m) == Build(t, m) && Permuted(s, t)
  {
    hide Build, Prints, Permuted;
    SealedIs(s, m);
    SealedIs(t, m);
    EqualWiresSameAnswers(s, t, m);
    SameOffers(s, t, m);
  }

  /** One authority is built from one set of offers. */
  lemma SameOffers(s: Spec, t: Spec, m: Machine)
    requires Build(s, m).Ok? && Build(t, m) == Build(s, m)
    ensures Permuted(s, t)
  {
    hide LoadAll, CheckBounds, CheckReply, WireOf, Canonical;
    CanonicalIsPermuted(s);
    CanonicalIsPermuted(t);
    SameCanonical(s, t, LoadAll(s).value);
  }

  lemma SameCanonical(s: Spec, t: Spec, o: Offers)
    requires Permuted(s, Canonical(s, o)) && Permuted(t, Canonical(t, o))
    requires s.attachment == t.attachment && s.replyTo == t.replyTo && s.replyTarget == t.replyTarget
    requires s.replyDelivery == t.replyDelivery && s.pending == t.pending
    ensures Permuted(s, t)
  {
    hide Values;
  }

  // ---- which specs are accepted ----

  ghost function NamedAt(ts: seq<Target>): set<nat> {
    set i: nat | i < |ts| && !ts[i].requested.self
  }

  lemma {:induction false} NamedCount(ts: seq<Target>)
    ensures NamedTargets(ts) == |NamedAt(ts)|
  {
    if ts == [] {
      assert NamedAt(ts) == {};
    } else {
      var n := |ts| - 1;
      NamedCount(ts[..n]);
      NamedStep(ts);
    }
  }

  lemma NamedStep(ts: seq<Target>)
    requires ts != []
    ensures var n := |ts| - 1;
            |NamedAt(ts)| == |NamedAt(ts[..n])| + if ts[n].requested.self then 0 else 1
  {
    var n := |ts| - 1;
    var before, after := NamedAt(ts[..n]), NamedAt(ts);
    forall i: nat
      ensures i in after <==> i in before || (i == n && !ts[n].requested.self)
    {
    }
    if ts[n].requested.self {
      assert after == before;
    } else {
      assert after == before + {n};
    }
  }

  /** No more offers of each sort than the bounds allow: at most one subject, 64 targets, 128 handles. */
  ghost predicate Bounded(s: Spec) {
    && |s.consequences| <= 8 && |s.subjects| <= 1 && |s.targets| <= 64
    && |s.subjects| + |s.references| + |s.artifacts| + |s.provenance| + |NamedAt(s.targets)| <= 128
  }

  /** A target resolves to a local Principal, self to the Attachment's own, or an alias to a remote one. */
  predicate Resolves(t: Target, principal: Handle) {
    || (t.destination.Local? && t.requested != NO_TARGET && t.localPrincipal != "" && t.remoteRoute == ""
        && t.remoteAlias == "" && (t.requested.self ==> t.localPrincipal == principal))
    || (t.destination.Remote? && t.requested.alias != "" && !t.requested.self && t.localPrincipal == ""
        && t.remoteRoute != "" && t.remoteAlias != "")
  }

  /** Every offer is complete. */
  ghost predicate Completed(s: Spec) {
    && (forall i :: 0 <= i < |s.consequences| ==> AgentDeclarable(s.consequences[i]))
    && (forall i :: 0 <= i < |s.subjects| ==>
        var x := s.subjects[i];
        x.handle != "" && x.handlingID != "" && x.head != NO_REF && x.fence > 0)
    && (forall i :: 0 <= i < |s.references| ==>
        var x := s.references[i];
        !x.absent && x.handle != "" && x.key != "" && x.head != NO_REF)
    && (forall i :: 0 <= i < |s.targets| ==> Resolves(s.targets[i], s.attachment.principal))
    && (forall i :: 0 <= i < |s.artifacts| ==> s.artifacts[i].handle != "" && s.artifacts[i].digest != ZERO)
    && (forall i :: 0 <= i < |s.provenance| ==> s.provenance[i].handle != "" && s.provenance[i].event != NO_REF)
  }

  /** No two offers of a sort share what they are asked for by. */
  ghost predicate Separate(s: Spec) {
    && (forall i, j :: 0 <= i < j < |s.consequences| ==> s.consequences[i] != s.consequences[j])
    && (forall i, j :: 0 <= i < j < |s.references| ==> s.references[i].handle != s.references[j].handle)
    && (forall i, j :: 0 <= i < j < |s.targets| ==> s.targets[i].requested != s.targets[j].requested)
    && (forall i, j :: 0 <= i < j < |s.artifacts| ==> s.artifacts[i].handle != s.artifacts[j].handle)
    && (forall i, j :: 0 <= i < j < |s.provenance| ==> s.provenance[i].handle != s.provenance[j].handle)
  }

  /** A reply is to an offered cause of the one subject, and its target, with a delivery, an offered remote one. */
  ghost predicate Replies(s: Spec) {
    if s.replyTo == "" then
      s.replyTarget == NO_TARGET && s.replyDelivery == ZERO && (s.pending ==> |s.subjects| == 1)
    else
      && |s.subjects| == 1 && (exists p :: p in s.provenance && p.handle == s.replyTo)
      && (s.replyTarget == NO_TARGET <==> s.replyDelivery == ZERO)
      && (s.replyTarget != NO_TARGET ==>
          exists t :: t in s.targets && t.requested == s.replyTarget && t.destination.Remote?)
  }

  /** What a spec must be for an authority to be built, but for the size of its bytes. */
  ghost predicate Admissible(s: Spec) {
    s.attachment.id != "" && Bounded(s) && Completed(s) && Separate(s) && Replies(s)
  }

  lemma BoundsAre(s: Spec)
    ensures CheckBounds(s).None? <==> s.attachment.id != "" && Bounded(s)
  {
    hide NamedAt;
    NamedCount(s.targets);
  }

  lemma NamesDiffer(c: Consequence, d: Consequence)
    requires !c.NoConsequence? && !d.NoConsequence? && Name(c) == Name(d)
    ensures c == d
  {
    hide Name, ParseConsequence;
    ConsequenceBack(c);
    ConsequenceBack(d);
  }

  lemma LoadsAre(s: Spec)
    requires |s.subjects| <= 1
    ensures LoadAll(s).Ok? <==> Completed(s) && Separate(s)
  {
    hide Load, Loadable, Holds, AgentDeclarable, Resolves;
    LoadIs(s.consequences, CheckConsequence, Name);
    LoadIs(s.subjects, CheckSubject, SubjectKey);
    LoadIs(s.references, CheckReference, ReferenceKey);
    LoadIs(s.targets, TargetCheck(s.attachment), RequestedKey);
    LoadIs(s.artifacts, CheckArtifact, ArtifactKey);
    LoadIs(s.provenance, CheckProvenance, ProvenanceKey);
    ConsequencesLoad(s);
    TargetsLoad(s);
    HandlesLoad(s);
  }

  lemma HandlesLoad(s: Spec)
    ensures |s.subjects| <= 1 ==>
              (Loadable(s.subjects, CheckSubject, SubjectKey) <==>
               forall i :: 0 <= i < |s.subjects| ==>
                 var x := s.subjects[i];
                 x.handle != "" && x.handlingID != "" && x.head != NO_REF && x.fence > 0)
    ensures Loadable(s.references, CheckReference, ReferenceKey) <==>
              && (forall i :: 0 <= i < |s.references| ==>
                  var x := s.references[i];
                  !x.absent && x.handle != "" && x.key != "" && x.head != NO_REF)
              && (forall i, j :: 0 <= i < j < |s.references| ==> s.references[i].handle != s.references[j].handle)
    ensures Loadable(s.artifacts, CheckArtifact, ArtifactKey) <==>
              && (forall i :: 0 <= i < |s.artifacts| ==> s.artifacts[i].handle != "" && s.artifacts[i].digest != ZERO)
              && (forall i, j :: 0 <= i < j < |s.artifacts| ==> s.artifacts[i].handle != s.artifacts[j].handle)
    ensures Loadable(s.provenance, CheckProvenance, ProvenanceKey) <==>
              && (forall i :: 0 <= i < |s.provenance| ==>
                  s.provenance[i].handle != "" && s.provenance[i].event != NO_REF)
              && (forall i, j :: 0 <= i < j < |s.provenance| ==> s.provenance[i].handle != s.provenance[j].handle)
  {
  }

  lemma ConsequencesLoad(s: Spec)
    ensures Loadable(s.consequences, CheckConsequence, Name) <==>
              && (forall i :: 0 <= i < |s.consequences| ==> AgentDeclarable(s.consequences[i]))
              && (forall i, j :: 0 <= i < j < |s.consequences| ==> s.consequences[i] != s.consequences[j])
  {
    hide Name;
    forall i, j | 0 <= i < j < |s.consequences|
                  && AgentDeclarable(s.consequences[i]) && AgentDeclarable(s.consequences[j])
      ensures Name(s.consequences[i]) == Name(s.consequences[j]) <==> s.consequences[i] == s.consequences[j]
    {
      if Name(s.consequences[i]) == Name(s.consequences[j]) {
        NamesDiffer(s.consequences[i], s.consequences[j]);
      }
    }
  }

  lemma TargetsLoad(s: Spec)
    ensures Loadable(s.targets, TargetCheck(s.attachment), RequestedKey) <==>
              && (forall i :: 0 <= i < |s.targets| ==> Resolves(s.targets[i], s.attachment.principal))
              && (forall i, j :: 0 <= i < j < |s.targets| ==> s.targets[i].requested != s.targets[j].requested)
  {
    hide TargetKey;
    forall i, j | 0 <= i < j < |s.targets|
      ensures RequestedKey(s.targets[i]) == RequestedKey(s.targets[j]) <==>
                s.targets[i].requested == s.targets[j].requested
    {
      if RequestedKey(s.targets[i]) == RequestedKey(s.targets[j]) {
        KeysDiffer(s.targets[i].requested, s.targets[j].requested);
      }
    }
  }

  lemma RepliesAre(s: Spec)
    requires LoadAll(s).Ok?
    ensures CheckReply(s, LoadAll(s).value).None? <==> Replies(s)
  {
    hide Load, Values, Holds, Loadable, TargetKey;
    var o := LoadAll(s).value;
    LoadIs(s.subjects, CheckSubject, SubjectKey);
    LoadValues(o.subjects, s.subjects, CheckSubject, SubjectKey);
    LoadIs(s.provenance, CheckProvenance, ProvenanceKey);
    HeldProvenance(s, o);
    ReplyTargetHeld(s, o);
  }

  lemma HeldProvenance(s: Spec, o: Offers)
    requires Holds(o.provenance, s.provenance, ProvenanceKey)
    ensures s.replyTo in o.provenance <==> exists p :: p in s.provenance && p.handle == s.replyTo
  {
  }

  lemma ReplyTargetHeld(s: Spec, o: Offers)
    requires Load(s.targets, TargetCheck(s.attachment), RequestedKey) == Ok(o.targets)
    ensures (&& TargetKey(s.replyTarget) in o.targets
             && o.targets[TargetKey(s.replyTarget)].destination == Remote
             && o.targets[TargetKey(s.replyTarget)].requested == s.replyTarget && !s.replyTarget.self) <==>
              exists t :: t in s.targets && t.requested == s.replyTarget && t.destination.Remote?
  {
    hide Load, TargetKey;
    var k := TargetKey(s.replyTarget);
    if t :| t in s.targets && t.requested == s.replyTarget && t.destination.Remote? {
      HeldByKey(s.targets, TargetCheck(s.attachment), RequestedKey, k, t);
    }
    if k in o.targets {
      HeldByKey(s.targets, TargetCheck(s.attachment), RequestedKey, k, o.targets[k]);
    }
  }

  /** An authority is built exactly from an admissible spec whose wire fits 16 KiB. */
  lemma BuiltIff(s: Spec, m: Machine)
    ensures Build(s, m).Ok? <==>
              Admissible(s) && exists w :: Prints(s, w) && |m.codec.encode(w)| <= 16 * 1024
  {
    hide LoadAll, CheckBounds, CheckReply, WireOf, Prints, Completed, Separate, Replies, NamedAt;
    BoundsAre(s);
    if CheckBounds(s).None? {
      LoadsAre(s);
      if LoadAll(s).Ok? {
        RepliesAre(s);
        WirePrints(s);
        var w := WireOf(s.attachment, LoadAll(s).value, s.replyTo, s.replyTarget, s.replyDelivery, s.pending);
        forall w' | Prints(s, w')
          ensures w' == w
        {
          OneWire(s, w, w');
        }
      }
    }
  }
}
