/**
 The bounded View shown to an Agent (internal/agency, agent_view.go,
 agent_view_focus.go, agent_view_parse.go): projected from a sealed authority,
 and parsed back as exactly that projection.
 */
module AgentView {
  import opened Common
  import opened Orders
  import opened AgencyValues
  import V = ViewAuthority
  import P = PeerDelivery

  const SCHEMA: string := "mnemon.agent.view"
  const VERSION: int := 8
  const MAX_BYTES: nat := 16 * 1024
  const MAX_REFERENCES: nat := 8
  const MAX_ARTIFACTS: nat := 8
  const MAX_RELATED: nat := 1
  const MAX_RELATED_TOTAL: int := 128

  // ---- what is projected ----

  datatype Relation = NoRelation | Correlation | TerminalReply
  datatype Outcome = NoOutcome | Completed | Declined | Unresolved
  datatype RefState = NoState | Active | Retracted

  datatype CurrentSpec = CurrentSpec(subject: Handle, replyTo: Handle, kind: Label, payload: P.Payload,
                                     artifacts: seq<Handle>)

  datatype RelatedSpec = RelatedSpec(event: Handle, relation: Relation, outcome: Outcome, kind: Label,
                                     payload: P.Payload, artifacts: seq<Handle>)

  datatype Outstanding = Outstanding(open: int, total: int, projected: int, truncated: bool)

  datatype ReferenceSpec = ReferenceSpec(head: Handle, state: RefState, artifact: Handle)

  datatype Spec = Spec(
    handle: Handle, authority: V.Authority, current: Option<CurrentSpec>, related: seq<RelatedSpec>,
    outstanding: Outstanding, references: seq<ReferenceSpec>)

  datatype View = View(handle: Handle, canonical: Bytes)

  // ---- the wire ----

  datatype CurrentWire = CurrentWire(
    handle: string, replyTo: string, replyRequired: bool, replyTarget: string, pending: bool,
    artifacts: seq<V.ArtifactWire>, kind: string, payload: string)

  datatype RelatedWire = RelatedWire(event: string, relation: string, outcome: string,
                                     artifacts: seq<V.ArtifactWire>, kind: string, payload: string)

  datatype ReferenceWire = ReferenceWire(key: string, head: string, state: string, artifact: Option<V.ArtifactWire>)

  datatype ShapeWire = ShapeWire(consequence: string, subject: string, successors: string, reference: string,
                                 artifacts: string)

  datatype ViewWire = ViewWire(
    schema: string, version: int, view: string, current: Option<CurrentWire>, related: seq<RelatedWire>,
    outstanding: Outstanding, references: seq<ReferenceWire>, targets: seq<string>, intents: seq<ShapeWire>,
    provenance: seq<string>)

  function RelationText(r: Relation): string {
    match r
    case NoRelation => ""
    case Correlation => "correlation"
    case TerminalReply => "terminal_reply"
  }

  function OutcomeText(o: Outcome): string {
    match o
    case NoOutcome => ""
    case Completed => "completed"
    case Declined => "declined"
    case Unresolved => "unresolved"
  }

  function StateText(s: RefState): string {
    match s
    case NoState => ""
    case Active => "active"
    case Retracted => "retracted"
  }

  /** allowedIntentShape. */
  function Shape(c: Consequence): ShapeWire {
    match c
    case CreateHandlings => ShapeWire(Name(c), "none", "required", "", "optional")
    case AdvanceHandling => ShapeWire(Name(c), "current", "optional", "", "optional")
    case ResolveCompleted => ShapeWire(Name(c), "current", "optional", "", "at_least_one")
    case ResolveDeclined => ShapeWire(Name(c), "current", "optional", "", "optional")
    case ResolveUnresolved => ShapeWire(Name(c), "current", "optional", "", "optional")
    case PublishReference => ShapeWire(Name(c), "none", "", "new_key", "exactly_one")
    case SupersedeReference => ShapeWire(Name(c), "none", "", "offered_head", "exactly_one")
    case RetractReference => ShapeWire(Name(c), "none", "", "offered_head", "none")
    case _ => ShapeWire(Name(c), "none", "", "", "optional")
  }

  // ---- artifacts ----

  function HandleKey(h: Handle): string { h }

  function OfferedCheck(a: V.Authority): Handle -> Option<Error> {
    (h: Handle) => if h == "" || h !in a.offers.artifacts then Some(Invariant) else None
  }

  function PublicArtifact(a: V.Authority, k: string): V.ArtifactWire {
    V.ArtifactWire(k, if k in a.offers.artifacts then DigestText(a.offers.artifacts[k].digest) else "")
  }

  function ShowArtifact(a: V.Authority): (string, Handle) -> V.ArtifactWire {
    (k: string, h: Handle) => PublicArtifact(a, h)
  }

  /** Offered artifacts, each once, by handle. */
  function Projected(hs: seq<Handle>, a: V.Authority): Result<map<string, Handle>> {
    Load(hs, OfferedCheck(a), HandleKey)
  }

  /** validatePublicArtifact. */
  function ParseArtifact(w: V.ArtifactWire, a: V.Authority): Result<Handle> {
    var handle := NewHandle(w.handle);
    if handle.Err? then Err(handle.error)
    else
      var digest := ParseDigest(w.digest);
      if digest.Err? then Err(digest.error)
      else if handle.value !in a.offers.artifacts || a.offers.artifacts[handle.value].digest != digest.value
          then Err(Invariant)
      else Ok(handle.value)
  }

  function ArtifactParser(a: V.Authority): V.ArtifactWire -> Result<Handle> {
    (w: V.ArtifactWire) => ParseArtifact(w, a)
  }

  // ---- the current responsibility ----

  /** projectReplyTarget. */
  function ReplyTarget(a: V.Authority): Result<string> {
    if a.replyTarget == V.NO_TARGET then Ok("")
    else
      var k := V.TargetKey(a.replyTarget);
      if k !in a.offers.targets || !a.offers.targets[k].destination.Remote?
          || a.offers.targets[k].requested != a.replyTarget
      then Err(Invariant) else Ok(a.replyTarget.alias)
  }

  function CheckCurrent(s: CurrentSpec, a: V.Authority): Option<Error> {
    if s.subject == "" || s.replyTo == "" || s.kind == "" then Some(Invalid)
    else if |s.artifacts| > MAX_ARTIFACTS then Some(Limit)
    else if s.subject !in a.offers.subjects || |a.offers.subjects| != 1 then Some(Invariant)
    else if s.replyTo != a.replyTo || s.replyTo !in a.offers.provenance then Some(Invariant)
    else if ReplyTarget(a).Err? then Some(ReplyTarget(a).error)
    else if Projected(s.artifacts, a).Err? then Some(Projected(s.artifacts, a).error)
    else None
  }

  ghost function CurrentOf(s: CurrentSpec, a: V.Authority): CurrentWire
    requires CheckCurrent(s, a).None?
  {
    CurrentWire(s.subject, s.replyTo, ReplyTarget(a).value != "", ReplyTarget(a).value, a.pending,
                Listed(Projected(s.artifacts, a).value, ShowArtifact(a)), s.kind, s.payload)
  }

  function CheckOptionalCurrent(c: Option<CurrentSpec>, a: V.Authority): Option<Error> {
    match c
    case Some(s) => CheckCurrent(s, a)
    case None =>
      if |a.offers.subjects| != 0 || a.replyTo != "" || a.replyTarget != V.NO_TARGET || a.replyDelivery != ZERO
      then Some(Invariant) else None
  }

  // ---- what is related ----

  predicate OutcomeFits(s: RelatedSpec) {
    s.relation.TerminalReply? <==> !s.outcome.NoOutcome?
  }

  function CheckRelated(s: RelatedSpec, a: V.Authority): Option<Error> {
    if s.event == "" || s.kind == "" || s.relation.NoRelation? then Some(Invalid)
    else if !OutcomeFits(s) then Some(Invariant)
    else if s.event !in a.offers.provenance then Some(Invariant)
    else if Projected(s.artifacts, a).Err? then Some(Projected(s.artifacts, a).error)
    else None
  }

  ghost function RelatedOf(s: RelatedSpec, a: V.Authority): RelatedWire
    requires CheckRelated(s, a).None?
  {
    RelatedWire(s.event, RelationText(s.relation), OutcomeText(s.outcome),
                Listed(Projected(s.artifacts, a).value, ShowArtifact(a)), s.kind, s.payload)
  }

  /** projectRelated; at most one Event is related, so that its loop turns at most once. */
  function CheckAllRelated(related: seq<RelatedSpec>, o: Outstanding, a: V.Authority): Option<Error> {
    if |related| > MAX_RELATED then Some(Limit)
    else if o.open < 0 || o.total < 0 || o.total > MAX_RELATED_TOTAL || o.projected < 0 || o.projected != |related|
            || o.truncated != (o.projected < o.total) then Some(Invariant)
    else if related == [] then None
    else CheckRelated(related[0], a)
  }

  // ---- References ----

  function HeadKey(r: ReferenceSpec): string { r.head }

  function CheckHead(a: V.Authority): ReferenceSpec -> Option<Error> {
    (r: ReferenceSpec) => if r.head == "" || r.head !in a.offers.references then Some(Invariant) else None
  }

  /** projectReferenceState. */
  function CheckState(a: V.Authority): ReferenceSpec -> Option<Error> {
    (r: ReferenceSpec) =>
      match r.state
      case Active => if r.artifact == "" || r.artifact !in a.offers.artifacts then Some(Invariant) else None
      case Retracted => if r.artifact != "" then Some(Invariant) else None
      case NoState => Some(Invalid)
  }

  /** Load with a second check once a key is known to be new. */
  function LoadThen<T>(offers: seq<T>, check: T -> Option<Error>, key: T -> string,
                       after: T -> Option<Error>): Result<map<string, T>> {
    if offers == [] then Ok(map[])
    else
      match LoadThen(offers[..|offers| - 1], check, key, after)
      case Err(e) => Err(e)
      case Ok(m) =>
        var o := offers[|offers| - 1];
        if check(o).Some? then Err(check(o).value)
        else if key(o) in m then Err(Invalid)
        else if after(o).Some? then Err(after(o).value)
        else Ok(m[key(o) := o])
  }

  function Both<T>(check: T -> Option<Error>, after: T -> Option<Error>): T -> Option<Error> {
    (x: T) => if check(x).Some? then check(x) else after(x)
  }

  lemma {:induction false} LoadThenIs<T>(offers: seq<T>, check: T -> Option<Error>, key: T -> string,
                                         after: T -> Option<Error>)
    ensures LoadThen(offers, check, key, after).Ok? <==> Load(offers, Both(check, after), key).Ok?
    ensures LoadThen(offers, check, key, after).Ok? ==>
              LoadThen(offers, check, key, after) == Load(offers, Both(check, after), key)
  {
    if offers != [] {
      LoadThenIs(offers[..|offers| - 1], check, key, after);
    }
  }

  function References(rs: seq<ReferenceSpec>, a: V.Authority): Result<map<string, ReferenceSpec>> {
    LoadThen(rs, CheckHead(a), HeadKey, CheckState(a))
  }

  function RefKeyOf(a: V.Authority, k: string): string {
    if k in a.offers.references then a.offers.references[k].key else ""
  }

  function ShowReference(a: V.Authority): (string, ReferenceSpec) -> ReferenceWire {
    (k: string, r: ReferenceSpec) =>
      ReferenceWire(RefKeyOf(a, r.head), r.head, StateText(r.state),
                    if r.state.Active? then Some(PublicArtifact(a, r.artifact)) else None)
  }

  function CheckReferences(rs: seq<ReferenceSpec>, a: V.Authority): Option<Error> {
    if |rs| > MAX_REFERENCES then Some(Limit)
    else if |rs| != |a.offers.references| then Some(Invariant)
    else if References(rs, a).Err? then Some(References(rs, a).error)
    else None
  }

  // ---- the whole View ----

  ghost function Handles(hs: seq<Handle>): set<string> {
    set h: Handle | h in hs :: h
  }

  ghost function RefArtifacts(rs: seq<ReferenceSpec>): set<string> {
    set r | r in rs && r.artifact != "" :: r.artifact
  }

  /** The artifacts a View shows. */
  ghost function Shown(s: Spec): set<string> {
    (if s.current.Some? then Handles(s.current.value.artifacts) else {})
    + (if s.related != [] then Handles(s.related[0].artifacts) else {})
    + RefArtifacts(s.references)
  }

  /** validateProjectedIntentShapes. */
  predicate IntentsFit(a: V.Authority, current: bool, references: nat) {
    forall k :: k in a.offers.consequences ==>
      var c := a.offers.consequences[k];
      && ((c.AdvanceHandling? || Terminal(c)) ==> current)
      && (c.CreateHandlings? ==> |a.offers.targets| != 0)
      && (c.SupersedeReference? || c.RetractReference? ==> references != 0)
  }

  ghost function Check(s: Spec): Option<Error> {
    if s.handle == "" || s.authority.digest == ZERO || s.authority.canonical == [] then Some(Invalid)
    else if CheckOptionalCurrent(s.current, s.authority).Some? then CheckOptionalCurrent(s.current, s.authority)
    else if CheckAllRelated(s.related, s.outstanding, s.authority).Some?
        then CheckAllRelated(s.related, s.outstanding, s.authority)
    else if CheckReferences(s.references, s.authority).Some? then CheckReferences(s.references, s.authority)
    else if Shown(s) != s.authority.offers.artifacts.Keys then Some(Invariant)
    else if !IntentsFit(s.authority, s.current.Some?, |s.references|) then Some(Invariant)
    else None
  }

  function AliasOf(t: V.Requested): string {
    if t.self then "self" else t.alias
  }

  ghost function TargetAliases(a: V.Authority): seq<string> {
    Sorted(set k | k in a.offers.targets :: AliasOf(a.offers.targets[k].requested))
  }

  function ShowShape(k: string, c: Consequence): ShapeWire { Shape(c) }

  ghost function Intents(a: V.Authority): seq<ShapeWire> {
    Listed(a.offers.consequences, ShowShape)
  }

  ghost function WireOf(s: Spec): ViewWire
    requires Check(s).None?
  {
    ViewWire(SCHEMA, VERSION, s.handle,
             if s.current.Some? then Some(CurrentOf(s.current.value, s.authority)) else None,
             if s.related == [] then [] else [RelatedOf(s.related[0], s.authority)],
             s.outstanding, Listed(References(s.references, s.authority).value, ShowReference(s.authority)),
             TargetAliases(s.authority), Intents(s.authority), Sorted(s.authority.offers.provenance.Keys))
  }

  /** NewAgentView. */
  ghost function New(s: Spec, codec: Codec<ViewWire>): Result<View> {
    if Check(s).Some? then Err(Check(s).value)
    else
      var canonical := codec.encode(WireOf(s));
      if |canonical| > MAX_BYTES then Err(Limit) else Ok(View(s.handle, canonical))
  }

  // ---- the parser ----

  function ParseRelation(relation: string, outcome: string): Result<(Relation, Outcome)> {
    if relation == "correlation" then
      if outcome != "" then Err(Invalid) else Ok((Correlation, NoOutcome))
    else if relation == "terminal_reply" then
      if outcome == "completed" then Ok((TerminalReply, Completed))
      else if outcome == "declined" then Ok((TerminalReply, Declined))
      else if outcome == "unresolved" then Ok((TerminalReply, Unresolved))
      else Err(Invalid)
    else Err(Invalid)
  }

  /** agentViewCurrentSpecFromWire. */
  function ParseCurrent(w: CurrentWire, a: V.Authority): Result<CurrentSpec> {
    var subject := NewHandle(w.handle);
    if subject.Err? then Err(subject.error) else
    var replyTo := NewHandle(w.replyTo);
    if replyTo.Err? then Err(replyTo.error)
    else if replyTo.value != a.replyTo || replyTo.value !in a.offers.provenance then Err(Invariant) else
    var target := ReplyTarget(a);
    if target.Err? then Err(target.error)
    else if w.replyTarget != target.value || w.replyRequired != (target.value != "") || w.pending != a.pending
        then Err(Invariant) else
    var kind := NewLabel(w.kind);
    if kind.Err? then Err(kind.error) else
    var payload := P.NewPayload(w.payload);
    if payload.Err? then Err(payload.error) else
    var artifacts := ParseAll(w.artifacts, ArtifactParser(a));
    if artifacts.Err? then Err(artifacts.error)
    else Ok(CurrentSpec(subject.value, replyTo.value, kind.value, payload.value, artifacts.value))
  }

  function ParseOptionalCurrent(w: Option<CurrentWire>, a: V.Authority): Result<Option<CurrentSpec>> {
    if w.None? then Ok(None)
    else
      var c := ParseCurrent(w.value, a);
      if c.Err? then Err(c.error) else Ok(Some(c.value))
  }

  /** agentViewRelatedSpecFromWire. */
  function ParseRelated(w: RelatedWire, a: V.Authority): Result<RelatedSpec> {
    var event := NewHandle(w.event);
    if event.Err? then Err(event.error)
    else if event.value !in a.offers.provenance then Err(Invariant) else
    var relation := ParseRelation(w.relation, w.outcome);
    if relation.Err? then Err(relation.error) else
    var kind := NewLabel(w.kind);
    if kind.Err? then Err(kind.error) else
    var payload := P.NewPayload(w.payload);
    if payload.Err? then Err(payload.error) else
    var artifacts := ParseAll(w.artifacts, ArtifactParser(a));
    if artifacts.Err? then Err(artifacts.error)
    else Ok(RelatedSpec(event.value, relation.value.0, relation.value.1, kind.value, payload.value, artifacts.value))
  }

  function RelatedParser(a: V.Authority): RelatedWire -> Result<RelatedSpec> {
    (w: RelatedWire) => ParseRelated(w, a)
  }

  /** One turn of agentViewReferenceSpecsFromWire. */
  function ParseReference(w: ReferenceWire, a: V.Authority): Result<ReferenceSpec> {
    var head := NewHandle(w.head);
    if head.Err? then Err(head.error)
    else if head.value !in a.offers.references || w.key != a.offers.references[head.value].key then Err(Invariant)
    else if w.state == "active" then
      if w.artifact.None? then Err(Invalid)
      else
        var artifact := ParseArtifact(w.artifact.value, a);
        if artifact.Err? then Err(artifact.error) else Ok(ReferenceSpec(head.value, Active, artifact.value))
    else if w.state == "retracted" then
      if w.artifact.Some? then Err(Invalid) else Ok(ReferenceSpec(head.value, Retracted, ""))
    else Err(Invalid)
  }

  function ReferenceParser(a: V.Authority): ReferenceWire -> Result<ReferenceSpec> {
    (w: ReferenceWire) => ParseReference(w, a)
  }

  /** The key at i was seen before: anywhere, or, where only neighbours are compared, just before. */
  predicate Repeats<W(==)>(ws: seq<W>, key: W -> string, neighbours: bool, i: nat)
    requires i < |ws|
  {
    if neighbours then i > 0 && key(ws[i - 1]) == key(ws[i])
    else exists j :: 0 <= j < i && key(ws[j]) == key(ws[i])
  }

  /** A list against the expected one, place by place. */
  function CheckFrom<W(==)>(ws: seq<W>, expected: seq<W>, check: W -> Option<Error>, key: W -> string,
                            neighbours: bool, i: nat): Option<Error>
    requires i <= |ws| == |expected|
    decreases |ws| - i
  {
    if i == |ws| then None
    else if check(ws[i]).Some? then check(ws[i])
    else if Repeats(ws, key, neighbours, i) then Some(Invalid)
    else if ws[i] != expected[i] then Some(Invariant)
    else CheckFrom(ws, expected, check, key, neighbours, i + 1)
  }

  function CheckList<W(==)>(ws: seq<W>, expected: seq<W>, check: W -> Option<Error>, key: W -> string,
                            neighbours: bool): Option<Error> {
    if |ws| != |expected| then Some(Invariant) else CheckFrom(ws, expected, check, key, neighbours, 0)
  }

  method CompareList<W(==)>(ws: seq<W>, expected: seq<W>, check: W -> Option<Error>, key: W -> string, neighbours: bool)
    returns (e: Option<Error>)
    ensures e == CheckList(ws, expected, check, key, neighbours)
  {
    if |ws| != |expected| {
      return Some(Invariant);
    }
    var seen: set<string> := {};
    var i := 0;
    while i < |ws|
      invariant i <= |ws|
      invariant CheckFrom(ws, expected, check, key, neighbours, i) == CheckFrom(ws, expected, check, key, neighbours, 0)
      invariant forall k :: k in seen <==> exists j :: 0 <= j < i && key(ws[j]) == k
    {
      e := check(ws[i]);
      if e.Some? {
        return;
      }
      if if neighbours then i > 0 && key(ws[i - 1]) == key(ws[i]) else key(ws[i]) in seen {
        return Some(Invalid);
      }
      if ws[i] != expected[i] {
        return Some(Invariant);
      }
      seen := seen + {key(ws[i])};
      i := i + 1;
    }
    return None;
  }

  function TargetToken(s: string): Option<Error> {
    if s == "self" || NewHandle(s).Ok? then None else Some(NewHandle(s).error)
  }

  function HandleToken(s: string): Option<Error> {
    if NewHandle(s).Ok? then None else Some(NewHandle(s).error)
  }

  function ShapeToken(w: ShapeWire): Option<Error> {
    if ParseConsequence(w.consequence).Ok? then None else Some(Invalid)
  }

  function Itself(s: string): string { s }
  function ShapeKey(w: ShapeWire): string { w.consequence }

  /** validateAgentViewDerivedWire. */
  ghost function CheckDerived(w: ViewWire, a: V.Authority): Option<Error> {
    var targets := CheckList(w.targets, TargetAliases(a), TargetToken, Itself, false);
    if targets.Some? then targets
    else
      var intents := CheckList(w.intents, Intents(a), ShapeToken, ShapeKey, false);
      if intents.Some? then intents
          else CheckList(w.provenance, Sorted(a.offers.provenance.Keys), HandleToken, Itself, true)
  }

  ghost function SpecFromWire(w: ViewWire, a: V.Authority): Result<Spec> {
    if w.schema != SCHEMA || w.version != VERSION then Err(Invalid) else
    var handle := NewHandle(w.view);
    if handle.Err? then Err(handle.error) else
    var current := ParseOptionalCurrent(w.current, a);
    if current.Err? then Err(current.error) else
    var related := ParseAll(w.related, RelatedParser(a));
    if related.Err? then Err(related.error) else
    var references := ParseAll(w.references, ReferenceParser(a));
    if references.Err? then Err(references.error)
    else if CheckDerived(w, a).Some? then Err(CheckDerived(w, a).value)
    else Ok(Spec(handle.value, a, current.value, related.value, w.outstanding, references.value))
  }

  /** ParseAgentViewCanonicalJSON. */
  ghost function Parse(data: Bytes, a: V.Authority, codec: Codec<ViewWire>): Result<View> {
    var w := DecodeObject(codec, data, MAX_BYTES);
    if w.Err? then Err(w.error)
    else
      var s := SpecFromWire(w.value, a);
      if s.Err? then Err(s.error)
      else
        var v := New(s.value, codec);
        if v.Err? then v else if v.value.canonical == data then v else Err(Invariant)
  }

  // ---- the parts come back ----

  /** What a sealed authority is known to be. */
  ghost predicate Sane(a: V.Authority) {
    SaneOffers(a.offers)
  }

  ghost predicate SaneOffers(o: V.Offers) {
    && (forall k :: k in o.artifacts ==> k != "" && o.artifacts[k].handle == k && o.artifacts[k].digest != ZERO)
    && (forall k :: k in o.references ==> o.references[k].handle == k)
    && (forall k :: k in o.provenance ==> k != "" && o.provenance[k].handle == k)
    && (forall k :: k in o.consequences ==> Name(o.consequences[k]) == k && AgentDeclarable(o.consequences[k]))
    && (forall k :: k in o.targets ==> o.targets[k].requested != V.NO_TARGET)
  }

  lemma LoadedIsSane(s: V.Spec)
    requires V.LoadAll(s).Ok?
    ensures SaneOffers(V.LoadAll(s).value)
  {
    hide Load, Values;
    V.LoadedValues(s.consequences, V.CheckConsequence, Name);
    V.LoadedValues(s.references, V.CheckReference, V.ReferenceKey);
    V.LoadedValues(s.targets, V.TargetCheck(s.attachment), V.RequestedKey);
    V.LoadedValues(s.artifacts, V.CheckArtifact, V.ArtifactKey);
    V.LoadedValues(s.provenance, V.CheckProvenance, V.ProvenanceKey);
  }

  lemma BuiltIsSane(s: V.Spec, m: V.Machine)
    requires V.Build(s, m).Ok?
    ensures Sane(V.Build(s, m).value)
  {
    hide V.LoadAll, V.WireOf, V.CheckBounds, V.CheckReply, SaneOffers;
    LoadedIsSane(s);
  }

  lemma ArtifactBack(a: V.Authority, h: Handle)
    requires Sane(a) && h in a.offers.artifacts
    ensures ParseArtifact(PublicArtifact(a, h), a) == Ok(h)
  {
    DigestBack(a.offers.artifacts[h].digest);
  }

  /** A list of artifacts, printed and parsed: the same ones, in order, which project to the same list. */
  lemma ArtifactsBack(hs: seq<Handle>, a: V.Authority)
    requires Sane(a) && Projected(hs, a).Ok?
    ensures var m := Projected(hs, a).value;
            && ParseAll(Listed(m, ShowArtifact(a)), ArtifactParser(a)) == Ok(Values(m))
            && Projected(Values(m), a) == Ok(m) && |Values(m)| == |hs| && Handles(Values(m)) == Handles(hs)
  {
    hide Load, Listed, Values, ParseAll, ParseArtifact, Sane;
    var m := Projected(hs, a).value;
    LoadIs(hs, OfferedCheck(a), HandleKey);
    LoadValues(m, hs, OfferedCheck(a), HandleKey);
    SameMembers(Values(m), hs);
    V.LoadedValues(hs, OfferedCheck(a), HandleKey);
    forall k | k in m
      ensures ArtifactParser(a)(ShowArtifact(a)(k, m[k])) == Ok(m[k])
    {
      ArtifactBack(a, m[k]);
    }
    V.ListedBack(m, ShowArtifact(a), ArtifactParser(a));
  }

  lemma CurrentBack(s: CurrentSpec, a: V.Authority)
    requires Sane(a) && CheckCurrent(s, a).None?
    ensures var s' := s.(artifacts := Values(Projected(s.artifacts, a).value));
            && ParseCurrent(CurrentOf(s, a), a) == Ok(s')
            && CheckCurrent(s', a).None? && CurrentOf(s', a) == CurrentOf(s, a)
            && Handles(s'.artifacts) == Handles(s.artifacts)
  {
    hide Projected, Listed, Values, ParseAll, Sane, Handles;
    ArtifactsBack(s.artifacts, a);
  }

  lemma RelationBack(s: RelatedSpec)
    requires !s.relation.NoRelation? && OutcomeFits(s)
    ensures ParseRelation(RelationText(s.relation), OutcomeText(s.outcome)) == Ok((s.relation, s.outcome))
  {
    assert "correlation"[0] == 'c' && "terminal_reply"[0] == 't';
    assert "completed"[0] == 'c' && "declined"[0] == 'd' && "unresolved"[0] == 'u';
  }

  lemma RelatedBack(s: RelatedSpec, a: V.Authority)
    requires Sane(a) && CheckRelated(s, a).None?
    ensures var s' := s.(artifacts := Values(Projected(s.artifacts, a).value));
            && ParseRelated(RelatedOf(s, a), a) == Ok(s')
            && CheckRelated(s', a).None? && RelatedOf(s', a) == RelatedOf(s, a)
            && Handles(s'.artifacts) == Handles(s.artifacts)
  {
    hide Projected, Listed, Values, ParseAll, Sane, Handles, ParseRelation, RelationText, OutcomeText;
    ArtifactsBack(s.artifacts, a);
    RelationBack(s);
  }

  lemma ReferenceBack(a: V.Authority, r: ReferenceSpec)
    requires Sane(a) && CheckHead(a)(r).None? && CheckState(a)(r).None?
    ensures ParseReference(ShowReference(a)(r.head, r), a) == Ok(r)
  {
    hide ParseArtifact, PublicArtifact, Sane;
    assert "active"[0] == 'a' && "retracted"[0] == 'r';
    if r.state.Active? {
      ArtifactBack(a, r.artifact);
    }
  }

  lemma ReferencesBack(rs: seq<ReferenceSpec>, a: V.Authority)
    requires Sane(a) && References(rs, a).Ok?
    ensures var m := References(rs, a).value;
            && ParseAll(Listed(m, ShowReference(a)), ReferenceParser(a)) == Ok(Values(m))
            && References(Values(m), a) == Ok(m) && |Values(m)| == |rs| && RefArtifacts(Values(m)) == RefArtifacts(rs)
  {
    hide Load, LoadThen, Listed, Values, ParseAll, ParseReference, Sane, CheckHead, CheckState, ShowReference;
    var check := Both(CheckHead(a), CheckState(a));
    LoadThenIs(rs, CheckHead(a), HeadKey, CheckState(a));
    var m := References(rs, a).value;
    LoadIs(rs, check, HeadKey);
    LoadValues(m, rs, check, HeadKey);
    LoadThenIs(Values(m), CheckHead(a), HeadKey, CheckState(a));
    SameMembers(Values(m), rs);
    V.LoadedValues(rs, check, HeadKey);
    forall k | k in m
      ensures ReferenceParser(a)(ShowReference(a)(k, m[k])) == Ok(m[k])
    {
      assert check(m[k]).None?;
      ReferenceBack(a, m[k]);
    }
    V.ListedBack(m, ShowReference(a), ReferenceParser(a));
  }

  // ---- the derived lists are what is expected ----

  lemma {:induction false} SameList<W>(ws: seq<W>, check: W -> Option<Error>, key: W -> string, neighbours: bool,
                                       i: nat)
    requires i <= |ws| && forall j :: 0 <= j < |ws| ==> check(ws[j]).None?
    requires forall j, k :: 0 <= j < k < |ws| ==> key(ws[j]) != key(ws[k])
    ensures CheckFrom(ws, ws, check, key, neighbours, i).None?
    decreases |ws| - i
  {
    if i < |ws| {
      SameList(ws, check, key, neighbours, i + 1);
    }
  }

  lemma AscendingList(ws: seq<string>, check: string -> Option<Error>, neighbours: bool)
    requires Ascending(ws) && forall w :: w in ws ==> check(w).None?
    ensures CheckList(ws, ws, check, Itself, neighbours).None?
  {
    forall j, k | 0 <= j < k < |ws|
      ensures Itself(ws[j]) != Itself(ws[k])
    {
      Irreflexive(ws[j]);
    }
    SameList(ws, check, Itself, neighbours, 0);
  }

  lemma DerivedFits(w: ViewWire, a: V.Authority)
    requires Sane(a) && w.targets == TargetAliases(a) && w.intents == Intents(a)
    requires w.provenance == Sorted(a.offers.provenance.Keys)
    ensures CheckDerived(w, a).None?
  {
    hide CheckList, Sane, TargetAliases, Intents;
    TargetsFit(a);
    IntentsListFit(a);
    ProvenanceFits(a);
  }

  lemma TargetsFit(a: V.Authority)
    requires Sane(a)
    ensures CheckList(TargetAliases(a), TargetAliases(a), TargetToken, Itself, false).None?
  {
    forall w | w in TargetAliases(a)
      ensures TargetToken(w).None?
    {
      var k :| k in a.offers.targets && AliasOf(a.offers.targets[k].requested) == w;
    }
    AscendingList(TargetAliases(a), TargetToken, false);
  }

  lemma ProvenanceFits(a: V.Authority)
    requires Sane(a)
    ensures var ks := Sorted(a.offers.provenance.Keys);
            CheckList(ks, ks, HandleToken, Itself, true).None?
  {
    AscendingList(Sorted(a.offers.provenance.Keys), HandleToken, true);
  }

  lemma ShapeNamed(c: Consequence)
    ensures Shape(c).consequence == Name(c)
  {
    hide Name;
  }

  lemma IntentsListFit(a: V.Authority)
    requires Sane(a)
    ensures CheckList(Intents(a), Intents(a), ShapeToken, ShapeKey, false).None?
  {
    hide ParseConsequence, Name, Shape;
    var ks, ws, m := Sorted(a.offers.consequences.Keys), Intents(a), a.offers.consequences;
    forall i | 0 <= i < |ws|
      ensures ShapeKey(ws[i]) == ks[i] && ShapeToken(ws[i]).None?
    {
      assert ks[i] in ks;
      ConsequenceBack(m[ks[i]]);
      ShapeNamed(m[ks[i]]);
    }
    forall i, j | 0 <= i < j < |ws|
      ensures ShapeKey(ws[i]) != ShapeKey(ws[j])
    {
      Irreflexive(ks[i]);
    }
    SameList(ws, ShapeToken, ShapeKey, false, 0);
  }

  // ---- the round trip ----

  /** Artifacts in the order of their handles. */
  ghost function InOrder(hs: seq<Handle>, a: V.Authority): seq<Handle> {
    if Projected(hs, a).Ok? then Values(Projected(hs, a).value) else hs
  }

  /** The spec a View parses to: the same, its lists in the order of their handles. */
  ghost function Ordered(s: Spec): Spec
    requires Check(s).None?
  {
    s.(current := if s.current.None? then None
                  else Some(s.current.value.(artifacts := InOrder(s.current.value.artifacts, s.authority))),
       related := if s.related == [] then []
                  else [s.related[0].(artifacts := InOrder(s.related[0].artifacts, s.authority))],
       references := Values(References(s.references, s.authority).value))
  }

  lemma OrderedSame(s: Spec)
    requires Check(s).None? && Sane(s.authority)
    ensures Check(Ordered(s)).None? && WireOf(Ordered(s)) == WireOf(s)
  {
    hide Check, WireOf, Sane;
    OrderedChecked(s);
    OrderedWire(s);
  }

  lemma OrderedChecked(s: Spec)
    requires Check(s).None? && Sane(s.authority)
    ensures Check(Ordered(s)).None?
  {
    hide CheckOptionalCurrent, CheckAllRelated, CheckReferences, Shown, IntentsFit, Sane, Ordered;
    OrderedKeeps(s);
    OrderedCurrent(s);
    OrderedRelated(s);
    OrderedReferences(s);
    OrderedShown(s);
  }

  /** What ordering its lists leaves of a spec. */
  lemma OrderedKeeps(s: Spec)
    requires Check(s).None? && Sane(s.authority)
    ensures var t := Ordered(s);
            && t.handle == s.handle && t.authority == s.authority && t.outstanding == s.outstanding
            && t.current.Some? == s.current.Some? && |t.references| == |s.references|
  {
    hide Check, Sane, References, Projected, Values;
    CheckedParts(s);
    ReferencesBack(s.references, s.authority);
  }

  lemma OrderedCurrent(s: Spec)
    requires Check(s).None? && Sane(s.authority)
    ensures CheckOptionalCurrent(Ordered(s).current, s.authority).None?
  {
    hide Check, Projected, CheckCurrent, Sane, References, Values;
    CheckedParts(s);
    if s.current.Some? {
      CurrentBack(s.current.value, s.authority);
    } else {
      NoCurrent(s);
    }
  }

  lemma NoCurrent(s: Spec)
    requires Check(s).None? && s.current.None?
    ensures CheckOptionalCurrent(None, s.authority).None?
  {
    hide CheckAllRelated, CheckReferences, Shown, IntentsFit;
  }

  lemma OrderedRelated(s: Spec)
    requires Check(s).None? && Sane(s.authority)
    ensures CheckAllRelated(Ordered(s).related, s.outstanding, s.authority).None?
  {
    hide Check, Projected, CheckRelated, Sane, References, Values;
    CheckedParts(s);
    CountsFit(s);
    if s.related != [] {
      RelatedBack(s.related[0], s.authority);
    }
  }

  lemma CountsFit(s: Spec)
    requires Check(s).None?
    ensures CheckAllRelated(s.related, s.outstanding, s.authority).None?
  {
    hide CheckOptionalCurrent, CheckAllRelated, CheckReferences, Shown, IntentsFit;
  }

  lemma OrderedReferences(s: Spec)
    requires Check(s).None? && Sane(s.authority)
    ensures CheckReferences(Ordered(s).references, s.authority).None?
  {
    hide CheckOptionalCurrent, CheckAllRelated, Shown, IntentsFit, Sane, References, Projected, Values;
    CheckedParts(s);
    ReferencesBack(s.references, s.authority);
  }

  lemma OrderedShown(s: Spec)
    requires Check(s).None? && Sane(s.authority)
    ensures Shown(Ordered(s)) == Shown(s)
  {
    hide Check, Projected, CheckCurrent, CheckRelated, Sane, References, Values, Handles, RefArtifacts;
    CheckedParts(s);
    if s.current.Some? {
      CurrentBack(s.current.value, s.authority);
    }
    if s.related != [] {
      RelatedBack(s.related[0], s.authority);
    }
    ReferencesBack(s.references, s.authority);
  }

  lemma OrderedWire(s: Spec)
    requires Check(s).None? && Sane(s.authority) && Check(Ordered(s)).None?
    ensures WireOf(Ordered(s)) == WireOf(s)
  {
    hide Check, Projected, References, CheckCurrent, CheckRelated, CurrentOf, RelatedOf, Listed, Values, Sane;
    hide TargetAliases, Intents;
    var a := s.authority;
    CheckedParts(s);
    if s.current.Some? {
      CurrentBack(s.current.value, a);
    }
    if s.related != [] {
      RelatedBack(s.related[0], a);
    }
    ReferencesBack(s.references, a);
  }

  lemma CheckedParts(s: Spec)
    requires Check(s).None?
    ensures s.current.Some? ==>
              CheckCurrent(s.current.value, s.authority).None? && Projected(s.current.value.artifacts, s.authority).Ok?
    ensures s.related != [] ==>
              CheckRelated(s.related[0], s.authority).None? && Projected(s.related[0].artifacts, s.authority).Ok?
    ensures References(s.references, s.authority).Ok?
  {
    hide Projected, References, Shown, IntentsFit;
  }

  lemma ParsedIsOrdered(s: Spec)
    requires Check(s).None? && Sane(s.authority)
    ensures SpecFromWire(WireOf(s), s.authority) == Ok(Ordered(s))
  {
    hide Projected, References, CheckCurrent, CheckRelated, CurrentOf, RelatedOf, Listed, Values, Sane, IntentsFit;
    hide Shown;
    hide ParseCurrent, ParseRelated, CheckDerived, TargetAliases, Intents;
    var a, w := s.authority, WireOf(s);
    CheckedParts(s);
    if s.current.Some? {
      CurrentBack(s.current.value, a);
    }
    if s.related != [] {
      RelatedBack(s.related[0], a);
      OneRelated(s.related[0], a);
    }
    ReferencesBack(s.references, a);
    DerivedFits(w, a);
  }

  lemma OneRelated(s: RelatedSpec, a: V.Authority)
    requires CheckRelated(s, a).None? && Projected(s.artifacts, a).Ok?
    requires ParseRelated(RelatedOf(s, a), a) == Ok(s.(artifacts := Values(Projected(s.artifacts, a).value)))
    ensures ParseAll([RelatedOf(s, a)], RelatedParser(a))
            == Ok([s.(artifacts := Values(Projected(s.artifacts, a).value))])
  {
    hide ParseRelated, RelatedOf, Projected, CheckRelated, Values;
    ParseAllBack([RelatedOf(s, a)], RelatedParser(a), [s.(artifacts := Values(Projected(s.artifacts, a).value))]);
  }

  /** Every View made from a sealed authority is accepted by its parser with that authority, and prints the same. */
  lemma RoundTrip(vs: V.Spec, vm: V.Machine, s: Spec, codec: Codec<ViewWire>)
    requires V.Build(vs, vm) == Ok(s.authority) && Faithful(codec) && New(s, codec).Ok?
    ensures Parse(New(s, codec).value.canonical, s.authority, codec) == New(s, codec)
  {
    hide Check, WireOf, SpecFromWire, Ordered, Sane;
    BuiltIsSane(vs, vm);
    DecodeBack(codec, WireOf(s), MAX_BYTES);
    ParsedIsOrdered(s);
    OrderedSame(s);
    OrderedKeeps(s);
  }
}
