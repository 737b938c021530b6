/**
 What a View shows of the spec its authority was built from, list by list, and
 what the intents it offers ask for, against what is accepted as an Event.
 */
module AgentViewLaws {
  import opened Common
  import opened Orders
  import opened AgencyValues
  import opened AgentView
  import opened ViewLaws
  import V = ViewAuthority
  import E = PeerEvent

  // ---- the offers an authority holds ----

  ghost predicate HoldsAll(o: V.Offers, vs: V.Spec) {
    && Holds(o.consequences, vs.consequences, Name) && Holds(o.subjects, vs.subjects, V.SubjectKey)
    && Holds(o.references, vs.references, V.ReferenceKey) && Holds(o.targets, vs.targets, V.RequestedKey)
    && Holds(o.artifacts, vs.artifacts, V.ArtifactKey) && Holds(o.provenance, vs.provenance, V.ProvenanceKey)
  }

  lemma BuiltHolds(vs: V.Spec, m: V.Machine)
    requires V.Build(vs, m).Ok?
    ensures var a := V.Build(vs, m).value;
            && HoldsAll(a.offers, vs) && a.replyTo == vs.replyTo && a.replyTarget == vs.replyTarget
            && a.replyDelivery == vs.replyDelivery && a.pending == vs.pending
            && Load(vs.consequences, V.CheckConsequence, Name) == Ok(a.offers.consequences)
            && |a.offers.subjects| == |vs.subjects| && |a.offers.targets| == |vs.targets|
            && |a.offers.references| == |vs.references|
  {
    hide Load, Holds, Loadable, V.WireOf, V.CheckBounds, V.CheckReply, Values;
    LoadIs(vs.consequences, V.CheckConsequence, Name);
    LoadIs(vs.subjects, V.CheckSubject, V.SubjectKey);
    LoadIs(vs.references, V.CheckReference, V.ReferenceKey);
    LoadIs(vs.targets, V.TargetCheck(vs.attachment), V.RequestedKey);
    LoadIs(vs.artifacts, V.CheckArtifact, V.ArtifactKey);
    LoadIs(vs.provenance, V.CheckProvenance, V.ProvenanceKey);
    var o := V.Build(vs, m).value.offers;
    LoadValues(o.subjects, vs.subjects, V.CheckSubject, V.SubjectKey);
    LoadValues(o.targets, vs.targets, V.TargetCheck(vs.attachment), V.RequestedKey);
    LoadValues(o.references, vs.references, V.CheckReference, V.ReferenceKey);
  }

  // ---- what is shown ----

  /** An artifact is shown with the digest it was offered with. */
  ghost predicate ShowsArtifact(vs: V.Spec, h: Handle, w: V.ArtifactWire) {
    exists x :: x in vs.artifacts && x.handle == h && w == V.ArtifactWire(h, "sha256:" + x.digest)
  }

  /** The artifacts, in the strict order of their handles. */
  ghost predicate ShowsArtifacts(vs: V.Spec, hs: seq<Handle>, ws: seq<V.ArtifactWire>) {
    exists ordered :: InKeyOrder(hs, HandleKey, ordered) && ShowsEach(vs, ordered, ws)
  }

  ghost predicate ShowsEach(vs: V.Spec, hs: seq<Handle>, ws: seq<V.ArtifactWire>) {
    |ws| == |hs| && forall i :: 0 <= i < |ws| ==> ShowsArtifact(vs, hs[i], ws[i])
  }

  ghost predicate ShowsCurrent(vs: V.Spec, c: CurrentSpec, w: CurrentWire) {
    && w.handle == c.subject && (exists x :: x in vs.subjects && x.handle == c.subject)
    && w.replyTo == c.replyTo == vs.replyTo
    && w.replyTarget == vs.replyTarget.alias && w.replyRequired == (vs.replyTarget.alias != "")
    && w.pending == vs.pending && w.kind == c.kind && w.payload == c.payload
    && ShowsArtifacts(vs, c.artifacts, w.artifacts)
  }

  ghost predicate ShowsRelated(vs: V.Spec, r: RelatedSpec, w: RelatedWire) {
    && w.event == r.event && (exists x :: x in vs.provenance && x.handle == r.event)
    && w.relation == (if r.relation.Correlation? then "correlation" else "terminal_reply")
    && (r.relation.Correlation? <==> w.outcome == "")
    && (r.outcome.Completed? <==> w.outcome == "completed") && (r.outcome.Declined? <==> w.outcome == "declined")
    && (r.outcome.Unresolved? <==> w.outcome == "unresolved")
    && w.kind == r.kind && w.payload == r.payload && ShowsArtifacts(vs, r.artifacts, w.artifacts)
  }

  ghost predicate ShowsReference(vs: V.Spec, r: ReferenceSpec, w: ReferenceWire) {
    && w.head == r.head && (exists x :: x in vs.references && x.handle == r.head && x.key == w.key)
    && w.state == (if r.state.Active? then "active" else "retracted")
    && (w.artifact.Some? <==> r.state.Active?)
    && (r.state.Active? ==> ShowsArtifact(vs, r.artifact, w.artifact.value))
  }

  /** The References, in the strict order of their heads. */
  ghost predicate ShowsReferences(vs: V.Spec, rs: seq<ReferenceSpec>, ws: seq<ReferenceWire>) {
    exists ordered :: InKeyOrder(rs, HeadKey, ordered) && ReferencesEach(vs, ordered, ws)
  }

  ghost predicate ReferencesEach(vs: V.Spec, rs: seq<ReferenceSpec>, ws: seq<ReferenceWire>) {
    |ws| == |rs| && forall i :: 0 <= i < |ws| ==> ShowsReference(vs, rs[i], ws[i])
  }

  function AliasText(t: V.Target): string {
    if t.requested.self then "self" else t.requested.alias
  }

  /** The aliases of the targets, or the handles of the causes, each once and in order. */
  ghost predicate ShowsNames<T(!new)>(offers: seq<T>, name: T -> string, ws: seq<string>) {
    Ascending(ws) && forall w :: w in ws <==> exists x :: x in offers && name(x) == w
  }

  /** The View shows its spec, and of its authority's spec the targets, the intents and the causes. */
  ghost predicate Shows(vs: V.Spec, s: Spec, w: ViewWire) {
    && w.schema == "mnemon.agent.view" && w.version == 8 && w.view == s.handle && w.outstanding == s.outstanding
    && w.current.Some? == s.current.Some?
    && (s.current.Some? ==> ShowsCurrent(vs, s.current.value, w.current.value))
    && |w.related| == |s.related| <= 1 && (s.related != [] ==> ShowsRelated(vs, s.related[0], w.related[0]))
    && ShowsReferences(vs, s.references, w.references)
    && ShowsNames(vs.targets, AliasText, w.targets)
    && Lists(vs.consequences, Name, Shape, w.intents)
    && ShowsNames(vs.provenance, V.ProvenanceKey, w.provenance)
  }

  lemma ArtifactShown(vs: V.Spec, a: V.Authority, h: Handle)
    requires Holds(a.offers.artifacts, vs.artifacts, V.ArtifactKey) && h in a.offers.artifacts
    ensures ShowsArtifact(vs, h, PublicArtifact(a, h))
  {
    var x := a.offers.artifacts[h];
    assert x in vs.artifacts && x.handle == h;
  }

  lemma ArtifactsShown(vs: V.Spec, a: V.Authority, hs: seq<Handle>)
    requires Holds(a.offers.artifacts, vs.artifacts, V.ArtifactKey) && Projected(hs, a).Ok?
    ensures ShowsArtifacts(vs, hs, Listed(Projected(hs, a).value, ShowArtifact(a)))
  {
    hide Load, Holds, ShowsArtifact, InKeyOrder, PublicArtifact;
    var m := Projected(hs, a).value;
    ValuesInOrder(hs, OfferedCheck(a), HandleKey);
    var vals, ws := Values(m), Listed(m, ShowArtifact(a));
    forall i | 0 <= i < |vals|
      ensures ShowsArtifact(vs, vals[i], ws[i])
    {
      assert OfferedCheck(a)(vals[i]).None?;
      ArtifactShown(vs, a, vals[i]);
    }
    assert InKeyOrder(hs, HandleKey, vals) && ShowsEach(vs, vals, ws);
  }

  lemma CurrentShown(vs: V.Spec, a: V.Authority, c: CurrentSpec)
    requires HoldsAll(a.offers, vs) && CheckCurrent(c, a).None?
    requires a.replyTo == vs.replyTo && a.replyTarget == vs.replyTarget && a.pending == vs.pending
    ensures ShowsCurrent(vs, c, CurrentOf(c, a))
  {
    hide Projected, Listed, ShowsArtifacts;
    ArtifactsShown(vs, a, c.artifacts);
    assert a.offers.subjects[c.subject] in vs.subjects;
  }

  lemma RelatedShown(vs: V.Spec, a: V.Authority, r: RelatedSpec)
    requires HoldsAll(a.offers, vs) && CheckRelated(r, a).None?
    ensures ShowsRelated(vs, r, RelatedOf(r, a))
  {
    hide Projected, Listed, ShowsArtifacts;
    ArtifactsShown(vs, a, r.artifacts);
    assert a.offers.provenance[r.event] in vs.provenance;
    assert "completed"[0] == 'c' && "declined"[0] == 'd' && "unresolved"[0] == 'u';
  }

  lemma ReferenceShown(vs: V.Spec, a: V.Authority, r: ReferenceSpec)
    requires HoldsAll(a.offers, vs) && CheckHead(a)(r).None? && CheckState(a)(r).None?
    ensures ShowsReference(vs, r, ShowReference(a)(r.head, r))
  {
    hide ShowsArtifact;
    assert a.offers.references[r.head] in vs.references;
    if r.state.Active? {
      ArtifactShown(vs, a, r.artifact);
    }
  }

  lemma ReferencesShown(vs: V.Spec, a: V.Authority, rs: seq<ReferenceSpec>)
    requires HoldsAll(a.offers, vs) && References(rs, a).Ok?
    ensures ShowsReferences(vs, rs, Listed(References(rs, a).value, ShowReference(a)))
  {
    hide Load, LoadThen, HoldsAll, ShowsReference, ShowReference, CheckHead, CheckState, InKeyOrder;
    var check := Both(CheckHead(a), CheckState(a));
    LoadThenIs(rs, CheckHead(a), HeadKey, CheckState(a));
    ValuesInOrder(rs, check, HeadKey);
    var m := References(rs, a).value;
    var vals, ws := Values(m), Listed(m, ShowReference(a));
    forall i | 0 <= i < |vals|
      ensures ShowsReference(vs, vals[i], ws[i])
    {
      assert check(vals[i]).None?;
      ReferenceShown(vs, a, vals[i]);
    }
    assert InKeyOrder(rs, HeadKey, vals) && ReferencesEach(vs, vals, ws);
  }

  lemma TargetsShown(vs: V.Spec, a: V.Authority)
    requires Holds(a.offers.targets, vs.targets, V.RequestedKey)
    ensures ShowsNames(vs.targets, AliasText, TargetAliases(a))
  {
    var ws := TargetAliases(a);
    forall w
      ensures w in ws <==> exists x :: x in vs.targets && AliasText(x) == w
    {
      if w in ws {
        var k :| k in a.offers.targets && AliasOf(a.offers.targets[k].requested) == w;
        assert a.offers.targets[k] in vs.targets;
      }
      if x :| x in vs.targets && AliasText(x) == w {
        var i :| 0 <= i < |vs.targets| && vs.targets[i] == x;
        assert V.RequestedKey(vs.targets[i]) in a.offers.targets;
      }
    }
  }

  lemma CausesShown(vs: V.Spec, a: V.Authority)
    requires Holds(a.offers.provenance, vs.provenance, V.ProvenanceKey)
    ensures ShowsNames(vs.provenance, V.ProvenanceKey, Sorted(a.offers.provenance.Keys))
  {
    var ws := Sorted(a.offers.provenance.Keys);
    forall w
      ensures w in ws <==> exists x :: x in vs.provenance && V.ProvenanceKey(x) == w
    {
      if w in ws {
        assert a.offers.provenance[w] in vs.provenance;
      }
      if x :| x in vs.provenance && V.ProvenanceKey(x) == w {
        var i :| 0 <= i < |vs.provenance| && vs.provenance[i] == x;
        assert V.ProvenanceKey(vs.provenance[i]) in a.offers.provenance;
      }
    }
  }

  lemma WireShows(vs: V.Spec, m: V.Machine, s: Spec)
    requires V.Build(vs, m) == Ok(s.authority) && Check(s).None?
    ensures Shows(vs, s, WireOf(s))
  {
    hide V.Build, Check, Projected, References, CheckCurrent, CheckRelated, CurrentOf, RelatedOf, Listed, Load;
    hide TargetAliases, Holds, Lists, ShowsNames, ShowsReferences, ShowsRelated, ShowsCurrent;
    var a := s.authority;
    BuiltHolds(vs, m);
    CheckedParts(s);
    CountsFit(s);
    if s.current.Some? {
      CurrentShown(vs, a, s.current.value);
    }
    if s.related != [] {
      RelatedShown(vs, a, s.related[0]);
    }
    ReferencesShown(vs, a, s.references);
    TargetsShown(vs, a);
    ListedLists(vs.consequences, V.CheckConsequence, Name, ShowShape, Shape);
    CausesShown(vs, a);
  }

  /** Whether an intent can be acted on with what the View shows. */
  ghost predicate Actionable(vs: V.Spec, s: Spec, c: Consequence) {
    && (c.AdvanceHandling? || c.ResolveCompleted? || c.ResolveDeclined? || c.ResolveUnresolved? ==> s.current.Some?)
    && (c.CreateHandlings? ==> vs.targets != [])
    && (c.SupersedeReference? || c.RetractReference? ==> s.references != [])
  }

  /** The artifacts of the current responsibility, of what is related, and of the References. */
  ghost predicate IsShown(s: Spec, h: Handle) {
    || (s.current.Some? && h in s.current.value.artifacts)
    || (s.related != [] && h in s.related[0].artifacts)
    || (exists r :: r in s.references && r.artifact == h && h != "")
  }

  /**
   A View that is made: its bytes, within the bound, decode to a wire that
   shows its spec and its authority's; it offers no intent that could not be
   acted on, and shows every artifact and every Reference head it was offered.
   */
  lemma ViewShows(vs: V.Spec, m: V.Machine, s: Spec, codec: Codec<ViewWire>)
    requires V.Build(vs, m) == Ok(s.authority) && Faithful(codec) && New(s, codec).Ok?
    ensures var v := New(s, codec).value;
            && v.handle == s.handle && |v.canonical| <= 16 * 1024
            && codec.decode(v.canonical).Some? && Shows(vs, s, codec.decode(v.canonical).value)
    ensures forall c :: c in vs.consequences ==> Actionable(vs, s, c)
    ensures forall x :: x in vs.artifacts ==> IsShown(s, x.handle)
    ensures |s.references| == |vs.references|
  {
    hide V.Build, Check, WireOf, Shows, Actionable, IsShown;
    WireShows(vs, m, s);
    forall c | c in vs.consequences
      ensures Actionable(vs, s, c)
    {
      IntentActionable(vs, m, s, c);
    }
    forall x | x in vs.artifacts
      ensures IsShown(s, x.handle)
    {
      AllShown(vs, m, s, x);
    }
    AllHeads(vs, m, s);
  }

  lemma CheckFacts(s: Spec)
    requires Check(s).None?
    ensures Shown(s) == s.authority.offers.artifacts.Keys && IntentsFit(s.authority, s.current.Some?, |s.references|)
    ensures |s.references| == |s.authority.offers.references|
  {
    hide CheckOptionalCurrent, CheckAllRelated, References, Shown, IntentsFit;
  }

  lemma IntentActionable(vs: V.Spec, m: V.Machine, s: Spec, c: Consequence)
    requires V.Build(vs, m) == Ok(s.authority) && Check(s).None? && c in vs.consequences
    ensures Actionable(vs, s, c)
  {
    hide V.Build, Check, Shown, Name, Load;
    BuiltHolds(vs, m);
    CheckFacts(s);
    var i :| 0 <= i < |vs.consequences| && vs.consequences[i] == c;
    assert Name(vs.consequences[i]) in s.authority.offers.consequences;
  }

  lemma AllShown(vs: V.Spec, m: V.Machine, s: Spec, x: V.Artifact)
    requires V.Build(vs, m) == Ok(s.authority) && Check(s).None? && x in vs.artifacts
    ensures IsShown(s, x.handle)
  {
    hide V.Build, Check, IntentsFit, Load, Shown;
    BuiltHolds(vs, m);
    CheckFacts(s);
    var i :| 0 <= i < |vs.artifacts| && vs.artifacts[i] == x;
    assert V.ArtifactKey(vs.artifacts[i]) in Shown(s);
    ShownIs(s, x.handle);
  }

  lemma ShownIs(s: Spec, h: Handle)
    ensures h in Shown(s) <==> IsShown(s, h)
  {
  }

  lemma AllHeads(vs: V.Spec, m: V.Machine, s: Spec)
    requires V.Build(vs, m) == Ok(s.authority) && Check(s).None?
    ensures |s.references| == |vs.references|
  {
    hide V.Build, Check, IntentsFit, Load, HoldsAll, Shown;
    BuiltHolds(vs, m);
    CheckFacts(s);
  }

  // ---- which Views are made ----

  ghost predicate Offered(vs: V.Spec, h: Handle) {
    h != "" && exists x :: x in vs.artifacts && x.handle == h
  }

  /** Offered artifacts, none twice. */
  ghost predicate OfferedOnce(vs: V.Spec, hs: seq<Handle>) {
    Distinct(hs) && forall i :: 0 <= i < |hs| ==> Offered(vs, hs[i])
  }

  /** The one subject, answered to the sealed cause, is the current responsibility; without one nothing is. */
  ghost predicate CurrentRight(vs: V.Spec, c: Option<CurrentSpec>) {
    match c
    case None => vs.subjects == [] && vs.replyTo == ""
    case Some(x) =>
      && x.subject != "" && x.kind != "" && |vs.subjects| == 1 && vs.subjects[0].handle == x.subject
      && x.replyTo != "" && x.replyTo == vs.replyTo && |x.artifacts| <= 8 && OfferedOnce(vs, x.artifacts)
  }

  ghost predicate RelatedRight(vs: V.Spec, r: RelatedSpec) {
    && r.kind != "" && r.event != "" && (exists p :: p in vs.provenance && p.handle == r.event)
    && !r.relation.NoRelation? && (r.relation.TerminalReply? <==> !r.outcome.NoOutcome?)
    && OfferedOnce(vs, r.artifacts)
  }

  /** The counts agree with what is shown, of at most one related Event and 128 in all. */
  predicate CountsRight(o: Outstanding, related: nat) {
    && 0 <= o.open && 0 <= o.total <= 128 && o.projected == related <= 1 && (o.truncated <==> o.projected < o.total)
  }

  ghost predicate ReferenceRight(vs: V.Spec, r: ReferenceSpec) {
    && r.head != "" && (exists x :: x in vs.references && x.handle == r.head)
    && match r.state
       case Active => Offered(vs, r.artifact)
       case Retracted => r.artifact == ""
       case NoState => false
  }

  /** Every sealed Reference head, at most eight, each once and with its state. */
  ghost predicate ReferencesRight(vs: V.Spec, rs: seq<ReferenceSpec>) {
    && |rs| <= 8 && |rs| == |vs.references|
    && (forall i, j :: 0 <= i < j < |rs| ==> rs[i].head != rs[j].head)
    && (forall i :: 0 <= i < |rs| ==> ReferenceRight(vs, rs[i]))
  }

  ghost predicate Viewable(vs: V.Spec, s: Spec) {
    && s.handle != "" && CurrentRight(vs, s.current)
    && CountsRight(s.outstanding, |s.related|)
    && (forall i :: 0 <= i < |s.related| ==> RelatedRight(vs, s.related[i]))
    && ReferencesRight(vs, s.references)
    && (forall x :: x in vs.artifacts ==> IsShown(s, x.handle))
    && (forall c :: c in vs.consequences ==> Actionable(vs, s, c))
  }

  lemma OfferedIs(vs: V.Spec, a: V.Authority, h: Handle)
    requires Holds(a.offers.artifacts, vs.artifacts, V.ArtifactKey)
    ensures h != "" && h in a.offers.artifacts <==> Offered(vs, h)
  {
  }

  lemma ProjectedIff(vs: V.Spec, a: V.Authority, hs: seq<Handle>)
    requires Holds(a.offers.artifacts, vs.artifacts, V.ArtifactKey)
    ensures Projected(hs, a).Ok? <==> OfferedOnce(vs, hs)
  {
    hide Load, Holds, Offered;
    LoadIs(hs, OfferedCheck(a), HandleKey);
    forall i | 0 <= i < |hs|
      ensures OfferedCheck(a)(hs[i]).None? <==> Offered(vs, hs[i])
    {
      OfferedIs(vs, a, hs[i]);
    }
  }

  /** The reply of an authority that was built is consistent. */
  lemma BuiltReplies(vs: V.Spec, m: V.Machine)
    requires V.Build(vs, m).Ok?
    ensures var a := V.Build(vs, m).value;
            && ReplyTarget(a).Ok? && (a.replyTo != "" ==> a.replyTo in a.offers.provenance && vs.subjects != [])
            && (a.replyTo == "" ==> a.replyTarget == V.NO_TARGET && a.replyDelivery == ZERO)
  {
    BuiltHolds(vs, m);
    hide V.LoadAll, V.WireOf, V.CheckBounds, HoldsAll;
  }

  lemma CurrentIff(vs: V.Spec, m: V.Machine, a: V.Authority, c: Option<CurrentSpec>)
    requires V.Build(vs, m) == Ok(a)
    ensures CheckOptionalCurrent(c, a).None? <==> CurrentRight(vs, c)
  {
    hide V.Build, Projected, OfferedOnce, ReplyTarget, Load, Holds;
    BuiltHolds(vs, m);
    BuiltReplies(vs, m);
    if c.Some? {
      ProjectedIff(vs, a, c.value.artifacts);
      OneSubject(vs, a, c.value.subject);
    }
  }

  lemma OneSubject(vs: V.Spec, a: V.Authority, h: Handle)
    requires Holds(a.offers.subjects, vs.subjects, V.SubjectKey)
    ensures |vs.subjects| == 1 ==> (h in a.offers.subjects <==> vs.subjects[0].handle == h)
  {
  }

  lemma RelatedIff(vs: V.Spec, a: V.Authority, r: RelatedSpec)
    requires HoldsAll(a.offers, vs)
    ensures CheckRelated(r, a).None? <==> RelatedRight(vs, r)
  {
    hide Projected, OfferedOnce;
    ProjectedIff(vs, a, r.artifacts);
    if r.event in a.offers.provenance {
      assert a.offers.provenance[r.event] in vs.provenance;
    }
  }

  lemma ReferenceIff(vs: V.Spec, a: V.Authority, r: ReferenceSpec)
    requires HoldsAll(a.offers, vs)
    ensures Both(CheckHead(a), CheckState(a))(r).None? <==> ReferenceRight(vs, r)
  {
    hide Offered;
    if r.head in a.offers.references {
      assert a.offers.references[r.head] in vs.references;
    }
    OfferedIs(vs, a, r.artifact);
  }

  lemma ReferencesIff(vs: V.Spec, a: V.Authority, rs: seq<ReferenceSpec>)
    requires HoldsAll(a.offers, vs) && |a.offers.references| == |vs.references|
    ensures CheckReferences(rs, a).None? <==> ReferencesRight(vs, rs)
  {
    hide Load, LoadThen, HoldsAll, ReferenceRight, CheckHead, CheckState, Both;
    var check := Both(CheckHead(a), CheckState(a));
    LoadThenIs(rs, CheckHead(a), HeadKey, CheckState(a));
    LoadIs(rs, check, HeadKey);
    forall i | 0 <= i < |rs|
      ensures check(rs[i]).None? <==> ReferenceRight(vs, rs[i])
    {
      ReferenceIff(vs, a, rs[i]);
    }
  }

  lemma ShownIff(vs: V.Spec, a: V.Authority, s: Spec)
    requires Holds(a.offers.artifacts, vs.artifacts, V.ArtifactKey)
    requires CurrentRight(vs, s.current) && (s.related != [] ==> RelatedRight(vs, s.related[0]))
    requires ReferencesRight(vs, s.references)
    ensures Shown(s) == a.offers.artifacts.Keys <==> forall x :: x in vs.artifacts ==> IsShown(s, x.handle)
  {
    hide IsShown, Shown, Offered;
    forall h: Handle
      ensures h in Shown(s) <==> IsShown(s, h)
    {
      ShownIs(s, h);
    }
    forall h | h in Shown(s)
      ensures h in a.offers.artifacts
    {
      ShownOffered(vs, a, s, h);
    }
    forall k | k in a.offers.artifacts
      ensures exists x :: x in vs.artifacts && x.handle == k
    {
      assert a.offers.artifacts[k] in vs.artifacts;
    }
    forall x | x in vs.artifacts
      ensures x.handle in a.offers.artifacts
    {
      var i :| 0 <= i < |vs.artifacts| && vs.artifacts[i] == x;
      assert V.ArtifactKey(vs.artifacts[i]) in a.offers.artifacts;
    }
  }

  lemma ShownOffered(vs: V.Spec, a: V.Authority, s: Spec, h: string)
    requires Holds(a.offers.artifacts, vs.artifacts, V.ArtifactKey) && h in Shown(s)
    requires CurrentRight(vs, s.current) && (s.related != [] ==> RelatedRight(vs, s.related[0]))
    requires ReferencesRight(vs, s.references)
    ensures h in a.offers.artifacts
  {
  }

  lemma IntentsIff(vs: V.Spec, m: V.Machine, a: V.Authority, s: Spec)
    requires V.Build(vs, m) == Ok(a)
    ensures IntentsFit(a, s.current.Some?, |s.references|) <==>
              forall c :: c in vs.consequences ==> Actionable(vs, s, c)
  {
    hide V.Build, Name, Load;
    BuiltHolds(vs, m);
    forall c | c in vs.consequences
      ensures exists k :: k in a.offers.consequences && a.offers.consequences[k] == c
    {
      var i :| 0 <= i < |vs.consequences| && vs.consequences[i] == c;
      assert Name(vs.consequences[i]) in a.offers.consequences;
    }
    forall k | k in a.offers.consequences
      ensures a.offers.consequences[k] in vs.consequences
    {
    }
  }

  lemma RelatedAllIff(vs: V.Spec, a: V.Authority, s: Spec)
    requires HoldsAll(a.offers, vs)
    ensures CheckAllRelated(s.related, s.outstanding, a).None? <==>
              && CountsRight(s.outstanding, |s.related|)
              && forall i :: 0 <= i < |s.related| ==> RelatedRight(vs, s.related[i])
  {
    hide CheckRelated, RelatedRight, HoldsAll;
    if s.related != [] {
      RelatedIff(vs, a, s.related[0]);
    }
  }

  lemma CheckIs(s: Spec)
    ensures Check(s).None? <==>
              && s.handle != "" && s.authority.digest != ZERO && s.authority.canonical != []
              && CheckOptionalCurrent(s.current, s.authority).None?
              && CheckAllRelated(s.related, s.outstanding, s.authority).None?
              && CheckReferences(s.references, s.authority).None?
              && Shown(s) == s.authority.offers.artifacts.Keys
              && IntentsFit(s.authority, s.current.Some?, |s.references|)
  {
    hide CheckOptionalCurrent, CheckAllRelated, CheckReferences, Shown, IntentsFit;
  }

  /** A View is made exactly of a viewable spec whose wire fits 16 KiB, unless its authority's digest is zero. */
  lemma ViewedIff(vs: V.Spec, m: V.Machine, s: Spec, codec: Codec<ViewWire>)
    requires V.Build(vs, m) == Ok(s.authority) && Faithful(m.codec)
    ensures Check(s).None? <==> s.authority.digest != ZERO && Viewable(vs, s)
    ensures New(s, codec).Ok? <==>
              s.authority.digest != ZERO && Viewable(vs, s) && |codec.encode(WireOf(s))| <= 16 * 1024
  {
    hide V.Build, WireOf, Check, CheckOptionalCurrent, CheckAllRelated, CheckReferences, Shown, IntentsFit;
    hide CurrentRight, RelatedRight, ReferencesRight, CountsRight, IsShown, Actionable, HoldsAll, Load;
    var a := s.authority;
    CanonicalThere(vs, m);
    BuiltHolds(vs, m);
    CheckIs(s);
    CurrentIff(vs, m, a, s.current);
    RelatedAllIff(vs, a, s);
    ReferencesIff(vs, a, s.references);
    IntentsIff(vs, m, a, s);
    if CurrentRight(vs, s.current) && (s.related != [] ==> RelatedRight(vs, s.related[0]))
       && ReferencesRight(vs, s.references) {
      HeldArtifacts(vs, a);
      ShownIff(vs, a, s);
    }
  }

  lemma HeldArtifacts(vs: V.Spec, a: V.Authority)
    requires HoldsAll(a.offers, vs)
    ensures Holds(a.offers.artifacts, vs.artifacts, V.ArtifactKey)
  {
    hide Holds;
  }

  lemma CanonicalThere(vs: V.Spec, m: V.Machine)
    requires V.Build(vs, m).Ok? && Faithful(m.codec)
    ensures V.Build(vs, m).value.canonical != []
  {
    hide V.LoadAll, V.WireOf, V.CheckBounds, V.CheckReply;
  }

  // ---- what an intent asks for ----

  /** An Event has what a shape asks for. */
  predicate HasShape(w: ShapeWire, e: E.Event) {
    && (w.subject == "current" <==> e.subject.Some?)
    && (w.successors == "required" ==> e.targets != []) && (w.successors == "" ==> e.targets == [])
    && (w.reference == "" <==> e.expected.None?)
    && (w.reference == "new_key" ==> e.expected.Some? && e.expected.value.absent)
    && (w.reference == "offered_head" ==> e.expected.Some? && !e.expected.value.absent)
    && (w.artifacts == "none" ==> |e.artifacts| == 0) && (w.artifacts == "exactly_one" ==> |e.artifacts| == 1)
    && (w.artifacts == "at_least_one" ==> |e.artifacts| >= 1)
  }

  /** Some target is local, if any is remote. */
  predicate Anchored(e: E.Event) {
    (exists t :: t in e.targets && t.destination.Remote?) ==> exists t :: t in e.targets && t.destination.Local?
  }

  lemma {:induction false} CountIs(ts: seq<V.Target>, d: V.Destination)
    ensures E.Count(ts, d) > 0 <==> exists t :: t in ts && t.destination == d
  {
    if ts != [] {
      var n := |ts| - 1;
      CountIs(ts[..n], d);
      assert ts == ts[..n] + [ts[n]];
    }
  }

  /**
   The shape shown for an intent is what the shape of an Event asks for: an
   Event of a declarable consequence that is no reply is accepted exactly when
   it has that shape and, but for an advance, a local target beside remote ones.
   */
  lemma ShapeIsAsked(e: E.Event)
    requires AgentDeclarable(e.consequence) && e.inReplyTo == ZERO
    ensures E.CheckShape(e).None? <==>
              HasShape(Shape(e.consequence), e) && (e.consequence.AdvanceHandling? || Anchored(e))
  {
    hide E.Count, Name;
    CountIs(e.targets, V.Local);
    CountIs(e.targets, V.Remote);
    assert "none"[0] == 'n' && "current"[0] == 'c' && "required"[0] == 'r' && "optional"[0] == 'o';
    assert "new_key"[1] == 'e' && "offered_head"[0] == 'o' && "exactly_one"[0] == 'e' && "at_least_one"[0] == 'a';
  }

  lemma CountOne(t: V.Target, d: V.Destination)
    ensures E.Count([t], d) == if t.destination == d then 1 else 0
  {
    assert [t][..0] == [];
  }

  /** A terminal Event that is a reply has the shape too, one remote target and a correlation. */
  lemma ReplyIsAsked(e: E.Event)
    requires AgentDeclarable(e.consequence) && e.inReplyTo != ZERO
    ensures E.CheckShape(e).None? <==>
              && Terminal(e.consequence) && HasShape(Shape(e.consequence), e) && e.correlation != NO_REF
              && |e.targets| == 1 && e.targets[0].destination.Remote?
  {
    hide Name, E.Count;
    if |e.targets| == 1 {
      assert e.targets == [e.targets[0]];
      CountOne(e.targets[0], V.Remote);
    }
    assert "none"[0] == 'n' && "current"[0] == 'c' && "required"[0] == 'r' && "optional"[0] == 'o';
    assert "new_key"[1] == 'e' && "offered_head"[0] == 'o' && "exactly_one"[0] == 'e' && "at_least_one"[0] == 'a';
  }
}
