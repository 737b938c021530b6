/**
 The machine-owned authority behind an Agent's View (internal/agency,
 view_authority.go, view_authority_wire.go, view_parse.go): built from typed
 offers, printed in a canonical form, and parsed back against the Attachment
 that owns it.
 */
module ViewAuthority {
  import opened Common
  import opened Orders
  import opened AgencyValues

  const VERSION: int := 7
  const MAX_CONSEQUENCES: nat := 8
  const MAX_TARGETS: nat := 64
  const MAX_HANDLES: nat := 128
  const MAX_BYTES: nat := 16 * 1024

  // ---- the offers ----

  datatype Boundary = Boundary(id: Handle, principal: Handle, mayInitiate: bool, issuedAt: int, expiresAt: int)

  /** An Attachment: its zero value, or one with a Principal. */
  type Attachment = a: Boundary | a.id != "" ==> a.principal != "" witness Boundary("", "", false, 0, 0)

  datatype Subject = Subject(handle: Handle, handlingID: Handle, head: EventRef, fence: nat, revision: nat)

  datatype Reference = Reference(absent: bool, handle: Handle, key: RefKey, head: EventRef)

  datatype Requested = Requested(self: bool, alias: Handle)

  /** A TargetRef: self, an alias other than "self", or the zero value. */
  type TargetRef = t: Requested | (t.self ==> t.alias == "") && t.alias != "self" witness Requested(false, "")

  const NO_TARGET: Requested := Requested(false, "")

  datatype Destination = Nowhere | Local | Remote

  datatype Target = Target(requested: TargetRef, destination: Destination, localPrincipal: Handle,
                           remoteRoute: Handle, remoteAlias: Handle)

  datatype Artifact = Artifact(handle: Handle, digest: Digest)

  datatype Provenance = Provenance(handle: Handle, event: EventRef)

  datatype Spec = Spec(
    attachment: Attachment, consequences: seq<Consequence>, subjects: seq<Subject>, references: seq<Reference>,
    targets: seq<Target>, replyTo: Handle, replyTarget: TargetRef, replyDelivery: Digest, pending: bool,
    artifacts: seq<Artifact>, provenance: seq<Provenance>)

  /** The offers by their keys. */
  datatype Offers = Offers(
    consequences: map<string, Consequence>, subjects: map<string, Subject>, references: map<string, Reference>,
    targets: map<string, Target>, artifacts: map<string, Artifact>, provenance: map<string, Provenance>)

  datatype Authority = Authority(
    attachment: Attachment, offers: Offers, replyTo: Handle, replyTarget: TargetRef, replyDelivery: Digest,
    pending: bool, canonical: Bytes, digest: Digest)

  function TargetKey(t: Requested): string {
    if t.self then "self" else "alias:" + t.alias
  }

  // ---- the checks ----

  function CheckConsequence(c: Consequence): Option<Error> {
    if AgentDeclarable(c) then None else Some(Invalid)
  }

  function CheckSubject(s: Subject): Option<Error> {
    if s.handle == "" || s.handlingID == "" || s.head == NO_REF || s.fence == 0 then Some(Invalid) else None
  }

  function CheckReference(r: Reference): Option<Error> {
    if r.absent || r.handle == "" || r.key == "" || r.head == NO_REF then Some(Invalid) else None
  }

  /** validateResolvedTarget. */
  function CheckTarget(t: Target, a: Boundary): Option<Error> {
    if t.requested == NO_TARGET then Some(Invalid)
    else
      match t.destination
      case Local =>
        if t.localPrincipal == "" || t.remoteRoute != "" || t.remoteAlias != "" then Some(Invalid)
        else if t.requested.self && t.localPrincipal != a.principal then Some(Invariant)
        else None
      case Remote =>
        if t.requested.self || t.remoteRoute == "" || t.remoteAlias == "" || t.localPrincipal != ""
            then Some(Invalid) else None
      case Nowhere => Some(Invalid)
  }

  function CheckArtifact(a: Artifact): Option<Error> {
    if a.handle == "" || a.digest == ZERO then Some(Invalid) else None
  }

  function CheckProvenance(p: Provenance): Option<Error> {
    if p.handle == "" || p.event == NO_REF then Some(Invalid) else None
  }

  function SubjectKey(s: Subject): string { s.handle }
  function ReferenceKey(r: Reference): string { r.handle }
  function RequestedKey(t: Target): string { TargetKey(t.requested) }
  function ArtifactKey(a: Artifact): string { a.handle }
  function ProvenanceKey(p: Provenance): string { p.handle }

  function NamedTargets(ts: seq<Target>): nat {
    if ts == [] then 0 else NamedTargets(ts[..|ts| - 1]) + if ts[|ts| - 1].requested.self then 0 else 1
  }

  function HandleCount(spec: Spec): nat {
    |spec.subjects| + |spec.references| + |spec.artifacts| + |spec.provenance| + NamedTargets(spec.targets)
  }

  predicate SharedHandle(subjects: seq<Subject>) {
    exists i, j :: 0 <= i < j < |subjects| && subjects[i].handle == subjects[j].handle
  }

  /** The bounds that are checked before any offer is. */
  function CheckBounds(spec: Spec): Option<Error> {
    if spec.attachment.id == "" then Some(Invalid)
    else if |spec.consequences| > MAX_CONSEQUENCES then Some(Limit)
    else if |spec.subjects| > 1 then Some(if SharedHandle(spec.subjects) then Invalid else Limit)
    else if |spec.targets| > MAX_TARGETS then Some(Limit)
    else if HandleCount(spec) > MAX_HANDLES then Some(Limit)
    else None
  }

  function LoadAll(spec: Spec): Result<Offers> {
    var consequences := Load(spec.consequences, CheckConsequence, Name);
    if consequences.Err? then Err(consequences.error)
    else
      var subjects := Load(spec.subjects, CheckSubject, SubjectKey);
      if subjects.Err? then Err(subjects.error)
      else
        var references := Load(spec.references, CheckReference, ReferenceKey);
        if references.Err? then Err(references.error)
        else
          var targets := Load(spec.targets, TargetCheck(spec.attachment), RequestedKey);
          if targets.Err? then Err(targets.error)
          else
            var artifacts := Load(spec.artifacts, CheckArtifact, ArtifactKey);
            if artifacts.Err? then Err(artifacts.error)
            else
              var provenance := Load(spec.provenance, CheckProvenance, ProvenanceKey);
              if provenance.Err? then Err(provenance.error)
              else Ok(Offers(consequences.value, subjects.value, references.value, targets.value, artifacts.value,
                             provenance.value))
  }

  function TargetCheck(a: Attachment): Target -> Option<Error> {
    (t: Target) => CheckTarget(t, a)
  }

  /** loadReplyContext, and what a pending reply observation needs. */
  function CheckReply(spec: Spec, offers: Offers): Option<Error> {
    if spec.replyTo == "" then
      if spec.replyTarget != NO_TARGET || spec.replyDelivery != ZERO then Some(Invalid)
      else if spec.pending && |offers.subjects| != 1 then Some(Invalid)
      else None
    else if |offers.subjects| != 1 then Some(Invalid)
    else if spec.replyTo !in offers.provenance then Some(Invariant)
    else if spec.replyTarget == NO_TARGET then
      if spec.replyDelivery != ZERO then Some(Invalid) else None
    else if spec.replyDelivery == ZERO then Some(Invalid)
    else if spec.replyTarget.self then Some(Invalid)
    else if TargetKey(spec.replyTarget) !in offers.targets
            || offers.targets[TargetKey(spec.replyTarget)].destination != Remote
            || offers.targets[TargetKey(spec.replyTarget)].requested != spec.replyTarget then Some(Invariant)
    else None
  }

  // ---- the wire ----

  datatype TargetWire = TargetWire(self: bool, alias: string)
  datatype SubjectWire = SubjectWire(handle: string, handlingID: string, head: RefWire, fence: nat, revision: nat)
  datatype ReferenceWire = ReferenceWire(handle: string, absent: bool, key: string, head: Option<RefWire>)
  datatype ResolvedWire = ResolvedWire(destination: string, localPrincipal: string, remoteRoute: string,
                                       remoteAlias: string)
  datatype ViewTargetWire = ViewTargetWire(requested: TargetWire, resolved: ResolvedWire)
  datatype ArtifactWire = ArtifactWire(handle: string, digest: string)
  datatype ProvenanceWire = ProvenanceWire(handle: string, event: RefWire)

  datatype ViewWire = ViewWire(
    version: int, principal: string, mayInitiate: bool, consequences: seq<string>, subjects: seq<SubjectWire>,
    references: seq<ReferenceWire>, targets: seq<ViewTargetWire>, replyTo: string, replyTarget: Option<TargetWire>,
    replyDelivery: string, pending: bool, artifacts: seq<ArtifactWire>, provenance: seq<ProvenanceWire>)

  function ShowConsequence(k: string, c: Consequence): string { Name(c) }

  function ShowSubject(k: string, s: Subject): SubjectWire {
    SubjectWire(k, s.handlingID, PrintRef(s.head), s.fence, s.revision)
  }

  function ShowReference(k: string, r: Reference): ReferenceWire {
    ReferenceWire(k, false, r.key, Some(PrintRef(r.head)))
  }

  function ShowResolved(t: Target): ResolvedWire {
    ResolvedWire(if t.destination.Remote? then "remote" else "local", t.localPrincipal, t.remoteRoute, t.remoteAlias)
  }

  function ShowTarget(k: string, t: Target): ViewTargetWire {
    ViewTargetWire(TargetWire(t.requested.self, t.requested.alias), ShowResolved(t))
  }

  function ShowArtifact(k: string, a: Artifact): ArtifactWire {
    ArtifactWire(k, DigestText(a.digest))
  }

  function ShowProvenance(k: string, p: Provenance): ProvenanceWire {
    ProvenanceWire(k, PrintRef(p.event))
  }

  ghost function WireOf(a: Attachment, o: Offers, replyTo: Handle, replyTarget: TargetRef, replyDelivery: Digest,
                        pending: bool): ViewWire {
    ViewWire(VERSION, a.principal, a.mayInitiate, Listed(o.consequences, ShowConsequence),
             Listed(o.subjects, ShowSubject), Listed(o.references, ShowReference),
             Listed(o.targets, ShowTarget), replyTo,
             if replyTarget == NO_TARGET then None else Some(TargetWire(false, replyTarget.alias)),
             if replyDelivery == ZERO then "" else DeliveryText(replyDelivery), pending,
             Listed(o.artifacts, ShowArtifact), Listed(o.provenance, ShowProvenance))
  }

  /** The encoder and the digest. */
  datatype Machine = Machine(codec: Codec<ViewWire>, sum: Bytes -> Digest)

  /** NewViewAuthority. */
  ghost function Build(spec: Spec, m: Machine): Result<Authority> {
    var bounds := CheckBounds(spec);
    if bounds.Some? then Err(bounds.value)
    else
      var offers := LoadAll(spec);
      if offers.Err? then Err(offers.error)
      else
        var reply := CheckReply(spec, offers.value);
        if reply.Some? then Err(reply.value) else Seal(spec, offers.value, m)
  }

  ghost function Seal(spec: Spec, o: Offers, m: Machine): Result<Authority> {
    var canonical := m.codec.encode(WireOf(spec.attachment, o, spec.replyTo, spec.replyTarget, spec.replyDelivery,
                                           spec.pending));
    if |canonical| > MAX_BYTES then Err(Limit)
    else Ok(Authority(spec.attachment, o, spec.replyTo, spec.replyTarget, spec.replyDelivery, spec.pending,
                      canonical, m.sum(canonical)))
  }

  method NewViewAuthority(spec: Spec, m: Machine) returns (r: Result<Authority>)
    ensures r == Build(spec, m)
  {
    hide Load, Listed, CheckBounds, CheckReply;
    var bounds := ValidateBounds(spec);
    if bounds.Some? {
      return Err(bounds.value);
    }
    var offers := LoadEach(spec);
    if offers.Err? {
      return Err(offers.error);
    }
    var reply := CheckReply(spec, offers.value);
    if reply.Some? {
      return Err(reply.value);
    }
    var wire := MakeWire(spec, offers.value);
    var canonical := m.codec.encode(wire);
    if |canonical| > MAX_BYTES {
      return Err(Limit);
    }
    return Ok(Authority(spec.attachment, offers.value, spec.replyTo, spec.replyTarget, spec.replyDelivery, spec.pending,
                        canonical, m.sum(canonical)));
  }

  method ValidateBounds(spec: Spec) returns (e: Option<Error>)
    ensures e == CheckBounds(spec)
  {
    if spec.attachment.id == "" {
      return Some(Invalid);
    }
    if |spec.consequences| > MAX_CONSEQUENCES {
      return Some(Limit);
    }
    if |spec.subjects| > 1 {
      var shared := FindShared(spec.subjects);
      return Some(if shared then Invalid else Limit);
    }
    if |spec.targets| > MAX_TARGETS {
      return Some(Limit);
    }
    var count := |spec.subjects| + |spec.references| + |spec.artifacts| + |spec.provenance|;
    var i := 0;
    while i < |spec.targets|
      invariant i <= |spec.targets|
      invariant count == |spec.subjects| + |spec.references| + |spec.artifacts| + |spec.provenance|
                         + NamedTargets(spec.targets[..i])
    {
      assert spec.targets[..i + 1][..i] == spec.targets[..i];
      if !spec.targets[i].requested.self {
        count := count + 1;
      }
      i := i + 1;
    }
    assert spec.targets[..i] == spec.targets;
    return if count > MAX_HANDLES then Some(Limit) else None;
  }

  /** validateSubjectOfferBound's loop. */
  method FindShared(subjects: seq<Subject>) returns (shared: bool)
    ensures shared == SharedHandle(subjects)
  {
    var seen: set<string> := {};
    var i := 0;
    while i < |subjects|
      invariant i <= |subjects| && forall k :: k in seen <==> exists j :: 0 <= j < i && subjects[j].handle == k
      invariant forall j, k :: 0 <= j < k < i ==> subjects[j].handle != subjects[k].handle
    {
      if subjects[i].handle in seen {
        return true;
      }
      seen := seen + {subjects[i].handle};
      i := i + 1;
    }
    return false;
  }

  /** load, offer by offer. */
  method LoadEach(spec: Spec) returns (r: Result<Offers>)
    ensures r == LoadAll(spec)
  {
    hide Load;
    var consequences := LoadOffers(spec.consequences, CheckConsequence, Name);
    if consequences.Err? { return Err(consequences.error); }
    var subjects := LoadOffers(spec.subjects, CheckSubject, SubjectKey);
    if subjects.Err? { return Err(subjects.error); }
    var references := LoadOffers(spec.references, CheckReference, ReferenceKey);
    if references.Err? { return Err(references.error); }
    var targets := LoadOffers(spec.targets, TargetCheck(spec.attachment), RequestedKey);
    if targets.Err? { return Err(targets.error); }
    var artifacts := LoadOffers(spec.artifacts, CheckArtifact, ArtifactKey);
    if artifacts.Err? { return Err(artifacts.error); }
    var provenance := LoadOffers(spec.provenance, CheckProvenance, ProvenanceKey);
    if provenance.Err? { return Err(provenance.error); }
    return Ok(Offers(consequences.value, subjects.value, references.value, targets.value, artifacts.value,
                     provenance.value));
  }

  /** wire. */
  method MakeWire(spec: Spec, o: Offers) returns (w: ViewWire)
    ensures w == WireOf(spec.attachment, o, spec.replyTo, spec.replyTarget, spec.replyDelivery, spec.pending)
  {
    hide Listed;
    var consequences := PrintSorted(o.consequences, ShowConsequence);
    var subjects := PrintSorted(o.subjects, ShowSubject);
    var references := PrintSorted(o.references, ShowReference);
    var targets := PrintSorted(o.targets, ShowTarget);
    var artifacts := PrintSorted(o.artifacts, ShowArtifact);
    var provenance := PrintSorted(o.provenance, ShowProvenance);
    w := ViewWire(VERSION, spec.attachment.principal, spec.attachment.mayInitiate, consequences, subjects,
                  references, targets, spec.replyTo,
                  if spec.replyTarget == NO_TARGET then None else Some(TargetWire(false, spec.replyTarget.alias)),
                  if spec.replyDelivery == ZERO then "" else DeliveryText(spec.replyDelivery),
                  spec.pending, artifacts, provenance);
  }

  // ---- the parser ----

  function ParseSubject(w: SubjectWire): Result<Subject> {
    var handle := NewHandle(w.handle);
    if handle.Err? then Err(handle.error)
    else
      var handlingID := NewHandle(w.handlingID);
      if handlingID.Err? then Err(handlingID.error)
      else
        var head := ParseRef(w.head);
        if head.Err? then Err(head.error)
        else if w.fence == 0 then Err(Invalid)
        else Ok(Subject(handle.value, handlingID.value, head.value, w.fence, w.revision))
  }

  function ParseReference(w: ReferenceWire): Result<Reference> {
    if w.absent || w.head.None? then Err(Invalid)
    else
      var handle := NewHandle(w.handle);
      if handle.Err? then Err(handle.error)
      else
        var key := NewRefKey(w.key);
        if key.Err? then Err(key.error)
        else
          var head := ParseRef(w.head.value);
          if head.Err? then Err(head.error) else Ok(Reference(false, handle.value, key.value, head.value))
  }

  function ParseTargetRef(w: TargetWire): Result<TargetRef> {
    if w.self == (w.alias != "") then Err(Invalid)
    else if w.self then Ok(Requested(true, ""))
    else
      var alias := NewHandle(w.alias);
      if alias.Err? then Err(alias.error)
      else if alias.value == "self" then Err(Invalid)
      else Ok(Requested(false, alias.value))
  }

  /** parseResolvedTarget. */
  function ParseResolved(requested: TargetRef, w: ResolvedWire): Result<Target> {
    if w.destination == "local" then
      if w.remoteRoute != "" || w.remoteAlias != "" then Err(Invalid)
      else
        var principal := NewHandle(w.localPrincipal);
        if principal.Err? then Err(principal.error)
        else if requested == NO_TARGET then Err(Invalid)
        else Ok(Target(requested, Local, principal.value, "", ""))
    else if w.destination == "remote" then
      if w.localPrincipal != "" then Err(Invalid)
      else
        var route := NewHandle(w.remoteRoute);
        if route.Err? then Err(route.error)
        else
          var alias := NewHandle(w.remoteAlias);
          if alias.Err? then Err(alias.error)
          else if requested == NO_TARGET || requested.self then Err(Invalid)
          else Ok(Target(requested, Remote, "", route.value, alias.value))
    else Err(Invalid)
  }

  function ParseTarget(w: ViewTargetWire): Result<Target> {
    var requested := ParseTargetRef(w.requested);
    if requested.Err? then Err(requested.error) else ParseResolved(requested.value, w.resolved)
  }

  function ParseArtifact(w: ArtifactWire): Result<Artifact> {
    var handle := NewHandle(w.handle);
    if handle.Err? then Err(handle.error)
    else
      var digest := ParseDigest(w.digest);
      if digest.Err? then Err(digest.error) else Ok(Artifact(handle.value, digest.value))
  }

  function ParseProvenance(w: ProvenanceWire): Result<Provenance> {
    var handle := NewHandle(w.handle);
    if handle.Err? then Err(handle.error)
    else
      var event := ParseRef(w.event);
      if event.Err? then Err(event.error) else Ok(Provenance(handle.value, event.value))
  }

  function ParseReplyTarget(w: Option<TargetWire>): Result<TargetRef> {
    if w.None? then Ok(Requested(false, ""))
    else
      var target := ParseTargetRef(w.value);
      if target.Err? then target else if target.value.self then Err(Invalid) else target
  }

  function ParseOptionalHandle(s: string): Result<Handle> {
    if s == "" then Ok("") else NewHandle(s)
  }

  function ParseOptionalDelivery(s: string): Result<Digest> {
    if s == "" then Ok(ZERO) else ParseDeliveryID(s)
  }

  /** machineViewSpecFromWire. */
  function SpecFromWire(w: ViewWire, a: Attachment): Result<Spec> {
    var consequences := ParseAll(w.consequences, ParseConsequence);
    if consequences.Err? then Err(consequences.error)
    else
      var subjects := ParseAll(w.subjects, ParseSubject);
      if subjects.Err? then Err(subjects.error)
      else
        var references := ParseAll(w.references, ParseReference);
        if references.Err? then Err(references.error)
        else
          var targets := ParseAll(w.targets, ParseTarget);
          if targets.Err? then Err(targets.error)
          else
            var replyTo := ParseOptionalHandle(w.replyTo);
            if replyTo.Err? then Err(replyTo.error)
            else
              var replyTarget := ParseReplyTarget(w.replyTarget);
              if replyTarget.Err? then Err(replyTarget.error)
              else
                var replyDelivery := ParseOptionalDelivery(w.replyDelivery);
                if replyDelivery.Err? then Err(replyDelivery.error)
                else
                  var artifacts := ParseAll(w.artifacts, ParseArtifact);
                  if artifacts.Err? then Err(artifacts.error)
                  else
                    var provenance := ParseAll(w.provenance, ParseProvenance);
                    if provenance.Err? then Err(provenance.error)
                    else
                      Ok(Spec(a, consequences.value, subjects.value, references.value, targets.value, replyTo.value,
                              replyTarget.value, replyDelivery.value, w.pending, artifacts.value, provenance.value))
  }

  /** ParseViewAuthorityCanonicalJSON. */
  ghost function Parse(data: Bytes, a: Attachment, m: Machine): Result<Authority> {
    var w := DecodeObject(m.codec, data, MAX_BYTES);
    if w.Err? then Err(w.error) else ParseWire(w.value, data, a, m)
  }

  ghost function ParseWire(w: ViewWire, data: Bytes, a: Attachment, m: Machine): Result<Authority> {
    if w.version != VERSION then Err(Invalid)
    else
      var principal := NewHandle(w.principal);
      if principal.Err? then Err(principal.error)
      else if a.id == "" || principal.value != a.principal || w.mayInitiate != a.mayInitiate then Err(Invariant)
      else
        var spec := SpecFromWire(w, a);
        if spec.Err? then Err(spec.error)
        else
          var r := Build(spec.value, m);
          if r.Err? then r else if r.value.canonical == data then r else Err(Invariant)
  }

  // ---- printing an offer and parsing it gives it back ----

  lemma SubjectBack(s: Subject)
    requires CheckSubject(s).None?
    ensures ParseSubject(ShowSubject(s.handle, s)) == Ok(s)
  {
    RefBack(s.head);
  }

  lemma ReferenceBack(r: Reference)
    requires CheckReference(r).None?
    ensures ParseReference(ShowReference(r.handle, r)) == Ok(r)
  {
    RefBack(r.head);
  }

  lemma TargetBack(k: string, t: Target, a: Boundary)
    requires CheckTarget(t, a).None?
    ensures ParseTarget(ShowTarget(k, t)) == Ok(t)
  {
    assert "local"[0] == 'l' && "remote"[0] == 'r';
  }

  lemma ArtifactBack(x: Artifact)
    requires CheckArtifact(x).None?
    ensures ParseArtifact(ShowArtifact(x.handle, x)) == Ok(x)
  {
    DigestBack(x.digest);
  }

  lemma ProvenanceBack(p: Provenance)
    requires CheckProvenance(p).None?
    ensures ParseProvenance(ShowProvenance(p.handle, p)) == Ok(p)
  {
    RefBack(p.event);
  }

  /** A list printed from a map parses into its values in key order. */
  lemma ListedBack<V, W>(m: map<string, V>, show: (string, V) -> W, parse: W -> Result<V>)
    requires forall k :: k in m ==> parse(show(k, m[k])) == Ok(m[k])
    ensures ParseAll(Listed(m, show), parse) == Ok(Values(m))
  {
    var ks, ws, vs := Sorted(m.Keys), Listed(m, show), Values(m);
    forall i | 0 <= i < |vs|
      ensures parse(ws[i]) == Ok(vs[i])
    {
      assert ks[i] in ks;
    }
    ParseAllBack(ws, parse, vs);
  }

  // ---- the order of the offers does not matter ----

  ghost predicate Permuted(s: Spec, t: Spec) {
    && t == s.(consequences := t.consequences, subjects := t.subjects, references := t.references, targets := t.targets,
               artifacts := t.artifacts, provenance := t.provenance)
    && multiset(s.consequences) == multiset(t.consequences) && multiset(s.subjects) == multiset(t.subjects)
    && multiset(s.references) == multiset(t.references) && multiset(s.targets) == multiset(t.targets)
    && multiset(s.artifacts) == multiset(t.artifacts) && multiset(s.provenance) == multiset(t.provenance)
  }

  lemma {:induction false} NamedPermuted(a: seq<Target>, b: seq<Target>)
    requires multiset(a) == multiset(b)
    ensures NamedTargets(a) == NamedTargets(b)
  {
    SameMembers(a, b);
    if a != [] {
      var n := |a| - 1;
      assert a[n] in b;
      var i := Index(b, a[n]);
      TakenOut(b, i);
      assert a == a[..n] + [a[n]];
      NamedPermuted(a[..n], Remove(b, i));
    }
  }

  lemma TakenOut(b: seq<Target>, i: nat)
    requires i < |b|
    ensures multiset(Remove(b, i)) == multiset(b) - multiset{b[i]}
    ensures NamedTargets(b) == NamedTargets(Remove(b, i)) + if b[i].requested.self then 0 else 1
  {
    hide NamedTargets;
    var front, back := b[..i], b[i + 1..];
    RemoveParts(b, i);
    NamedSplit(front, [b[i]]);
    NamedSplit(front + [b[i]], back);
    NamedSplit(front, back);
    NamedOne(b[i]);
  }

  lemma NamedOne(t: Target)
    ensures NamedTargets([t]) == if t.requested.self then 0 else 1
  {
    assert [t][..0] == [];
  }

  lemma {:induction false} NamedSplit(a: seq<Target>, b: seq<Target>)
    ensures NamedTargets(a + b) == NamedTargets(a) + NamedTargets(b)
  {
    if b == [] {
      assert a + b == a;
    } else {
      var n := |b| - 1;
      NamedSplit(a, b[..n]);
      assert (a + b)[..|a| + n] == a + b[..n];
    }
  }

  lemma BoundsPermuted(s: Spec, t: Spec)
    requires Permuted(s, t) && CheckBounds(s).None?
    ensures CheckBounds(t).None?
  {
    SameMembers(s.consequences, t.consequences);
    SameMembers(s.subjects, t.subjects);
    SameMembers(s.references, t.references);
    SameMembers(s.targets, t.targets);
    SameMembers(s.artifacts, t.artifacts);
    SameMembers(s.provenance, t.provenance);
    NamedPermuted(s.targets, t.targets);
  }

  lemma LoadAllPermuted(s: Spec, t: Spec)
    requires Permuted(s, t) && LoadAll(s).Ok?
    ensures LoadAll(t) == LoadAll(s)
  {
    hide Load;
    LoadPermuted(s.consequences, t.consequences, CheckConsequence, Name);
    LoadPermuted(s.subjects, t.subjects, CheckSubject, SubjectKey);
    LoadPermuted(s.references, t.references, CheckReference, ReferenceKey);
    LoadPermuted(s.targets, t.targets, TargetCheck(s.attachment), RequestedKey);
    LoadPermuted(s.artifacts, t.artifacts, CheckArtifact, ArtifactKey);
    LoadPermuted(s.provenance, t.provenance, CheckProvenance, ProvenanceKey);
  }

  /** Offers in any order make the same authority: the same wire, the same digest, the same answers. */
  lemma OrderDoesNotMatter(s: Spec, t: Spec, m: Machine)
    requires Permuted(s, t) && Build(s, m).Ok?
    ensures Build(t, m) == Build(s, m)
  {
    hide LoadAll, CheckBounds, WireOf;
    BoundsPermuted(s, t);
    LoadAllPermuted(s, t);
  }

  // ---- the round trip ----

  /** The spec a wire parses to: the same offers, in the order of their keys. */
  ghost function Canonical(s: Spec, o: Offers): Spec {
    s.(consequences := Values(o.consequences), subjects := Values(o.subjects), references := Values(o.references),
       targets := Values(o.targets), artifacts := Values(o.artifacts), provenance := Values(o.provenance))
  }

  lemma LoadedValues<T>(offers: seq<T>, check: T -> Option<Error>, key: T -> string)
    requires Load(offers, check, key).Ok?
    ensures var m := Load(offers, check, key).value;
            && multiset(Values(m)) == multiset(offers)
            && forall k :: k in m ==> key(m[k]) == k && check(m[k]).None?
  {
    LoadIs(offers, check, key);
    var m := Load(offers, check, key).value;
    LoadValues(m, offers, check, key);
    forall k | k in m
      ensures key(m[k]) == k && check(m[k]).None?
    {
      var i :| 0 <= i < |offers| && offers[i] == m[k];
      assert check(offers[i]).None?;
    }
  }

  ghost predicate Offered(s: Spec, o: Offers) {
    && (forall k :: k in o.consequences ==> CheckConsequence(o.consequences[k]).None?)
    && (forall k :: k in o.subjects ==> SubjectKey(o.subjects[k]) == k && CheckSubject(o.subjects[k]).None?)
    && (forall k :: k in o.references ==> ReferenceKey(o.references[k]) == k && CheckReference(o.references[k]).None?)
    && (forall k :: k in o.targets ==> CheckTarget(o.targets[k], s.attachment).None?)
    && (forall k :: k in o.artifacts ==> ArtifactKey(o.artifacts[k]) == k && CheckArtifact(o.artifacts[k]).None?)
    && (forall k :: k in o.provenance ==> ProvenanceKey(o.provenance[k]) == k && CheckProvenance(o.provenance[k]).None?)
  }

  lemma CanonicalIsPermuted(s: Spec)
    requires LoadAll(s).Ok?
    ensures Permuted(s, Canonical(s, LoadAll(s).value)) && Offered(s, LoadAll(s).value)
  {
    hide Load, Values;
    LoadedValues(s.consequences, CheckConsequence, Name);
    LoadedValues(s.subjects, CheckSubject, SubjectKey);
    LoadedValues(s.references, CheckReference, ReferenceKey);
    LoadedValues(s.targets, TargetCheck(s.attachment), RequestedKey);
    LoadedValues(s.artifacts, CheckArtifact, ArtifactKey);
    LoadedValues(s.provenance, CheckProvenance, ProvenanceKey);
  }

  lemma ListsBack(s: Spec, o: Offers)
    requires Offered(s, o)
    ensures ParseAll(Listed(o.consequences, ShowConsequence), ParseConsequence) == Ok(Values(o.consequences))
    ensures ParseAll(Listed(o.subjects, ShowSubject), ParseSubject) == Ok(Values(o.subjects))
    ensures ParseAll(Listed(o.references, ShowReference), ParseReference) == Ok(Values(o.references))
    ensures ParseAll(Listed(o.targets, ShowTarget), ParseTarget) == Ok(Values(o.targets))
    ensures ParseAll(Listed(o.artifacts, ShowArtifact), ParseArtifact) == Ok(Values(o.artifacts))
    ensures ParseAll(Listed(o.provenance, ShowProvenance), ParseProvenance) == Ok(Values(o.provenance))
  {
    hide Listed, Values, ParseAll, ParseConsequence, ParseSubject, ParseReference, ParseTarget, ParseArtifact;
    hide ParseProvenance;
    hide ShowSubject, ShowReference, ShowTarget, ShowArtifact, ShowProvenance;
    forall k | k in o.consequences
      ensures ParseConsequence(ShowConsequence(k, o.consequences[k])) == Ok(o.consequences[k])
    {
      ConsequenceBack(o.consequences[k]);
    }
    forall k | k in o.subjects ensures ParseSubject(ShowSubject(k, o.subjects[k])) == Ok(o.subjects[k]) {
      SubjectBack(o.subjects[k]);
    }
    forall k | k in o.references ensures ParseReference(ShowReference(k, o.references[k])) == Ok(o.references[k]) {
      ReferenceBack(o.references[k]);
    }
    forall k | k in o.targets ensures ParseTarget(ShowTarget(k, o.targets[k])) == Ok(o.targets[k]) {
      TargetBack(k, o.targets[k], s.attachment);
    }
    forall k | k in o.artifacts ensures ParseArtifact(ShowArtifact(k, o.artifacts[k])) == Ok(o.artifacts[k]) {
      ArtifactBack(o.artifacts[k]);
    }
    forall k | k in o.provenance ensures ParseProvenance(ShowProvenance(k, o.provenance[k])) == Ok(o.provenance[k]) {
      ProvenanceBack(o.provenance[k]);
    }
    ListedBack(o.consequences, ShowConsequence, ParseConsequence);
    ListedBack(o.subjects, ShowSubject, ParseSubject);
    ListedBack(o.references, ShowReference, ParseReference);
    ListedBack(o.targets, ShowTarget, ParseTarget);
    ListedBack(o.artifacts, ShowArtifact, ParseArtifact);
    ListedBack(o.provenance, ShowProvenance, ParseProvenance);
  }

  lemma SpecBack(s: Spec, o: Offers)
    requires Offered(s, o) && CheckReply(s, o).None?
    ensures SpecFromWire(WireOf(s.attachment, o, s.replyTo, s.replyTarget, s.replyDelivery, s.pending), s.attachment)
            == Ok(Canonical(s, o))
  {
    hide Offered, Listed, Values, ParseAll, ParseConsequence, ParseSubject, ParseReference, ParseTarget;
    hide ParseArtifact, ParseProvenance;
    ListsBack(s, o);
    if s.replyDelivery != ZERO {
      DigestBack(s.replyDelivery);
      assert DeliveryText(s.replyDelivery)[0] == 'd';
    }
  }

  /** Every authority that is built is accepted by its parser under its own Attachment, and comes back the same. */
  lemma RoundTrip(s: Spec, m: Machine)
    requires Faithful(m.codec) && Build(s, m).Ok?
    ensures Parse(Build(s, m).value.canonical, s.attachment, m) == Build(s, m)
  {
    hide LoadAll, CheckBounds, CheckReply, WireOf, Listed, Canonical, SpecFromWire, Offered;
    var a := Build(s, m).value;
    var o := LoadAll(s).value;
    var w := WireOf(s.attachment, o, s.replyTo, s.replyTarget, s.replyDelivery, s.pending);
    DecodeBack(m.codec, w, MAX_BYTES);
    CanonicalIsPermuted(s);
    SpecBack(s, o);
    OrderDoesNotMatter(s, Canonical(s, o), m);
    WireHead(s, o);
    AttachmentKnown(s);
  }

  lemma WireHead(s: Spec, o: Offers)
    ensures var w := WireOf(s.attachment, o, s.replyTo, s.replyTarget, s.replyDelivery, s.pending);
            w.version == VERSION && w.principal == s.attachment.principal && w.mayInitiate == s.attachment.mayInitiate
  {
  }

  lemma AttachmentKnown(s: Spec)
    requires CheckBounds(s).None?
    ensures s.attachment.id != "" && NewHandle(s.attachment.principal) == Ok(s.attachment.principal)
  {
  }

  /** What the parser accepts prints as the bytes it was given, and belongs to the Attachment it was given. */
  lemma ParsedIsGiven(data: Bytes, a: Attachment, m: Machine)
    requires Parse(data, a, m).Ok?
    ensures Parse(data, a, m).value.canonical == data && Parse(data, a, m).value.attachment == a
  {
    hide LoadAll, CheckBounds, CheckReply, WireOf, ParseAll;
  }

  // ---- the answers ----

  function Allows(a: Authority, c: Consequence): bool {
    Name(c) in a.offers.consequences && a.offers.consequences[Name(c)] == c
  }

  function ResolveSubject(a: Authority, h: Handle): Option<Subject> {
    if h != "" && h in a.offers.subjects then Some(a.offers.subjects[h]) else None
  }

  function ResolveReference(a: Authority, h: Handle): Option<Reference> {
    if h != "" && h in a.offers.references then Some(a.offers.references[h]) else None
  }

  function ResolveTarget(a: Authority, t: TargetRef): Option<Target> {
    if t != NO_TARGET && TargetKey(t) in a.offers.targets then Some(a.offers.targets[TargetKey(t)]) else None
  }

  function ResolveProvenance(a: Authority, h: Handle): Option<EventRef> {
    if h != "" && h in a.offers.provenance then Some(a.offers.provenance[h].event) else None
  }

  function ResolveArtifact(a: Authority, h: Handle): Result<Digest> {
    if h == "" then Err(Invalid)
    else if h !in a.offers.artifacts || a.offers.artifacts[h].handle != h || a.offers.artifacts[h].digest == ZERO
        then Err(Invariant)
    else Ok(a.offers.artifacts[h].digest)
  }

  /**
   Two authorities of one Attachment with the same canonical bytes are one:
   they give the same answers to everything.
   */
  lemma EqualWiresSameAnswers(s: Spec, t: Spec, m: Machine)
    requires Faithful(m.codec) && Build(s, m).Ok? && Build(t, m).Ok? && s.attachment == t.attachment
    requires Build(s, m).value.canonical == Build(t, m).value.canonical
    ensures Build(s, m) == Build(t, m)
    ensures var a, b := Build(s, m).value, Build(t, m).value;
            && (forall c :: Allows(a, c) == Allows(b, c))
            && (forall h :: ResolveSubject(a, h) == ResolveSubject(b, h))
            && (forall h :: ResolveReference(a, h) == ResolveReference(b, h))
            && (forall h :: ResolveProvenance(a, h) == ResolveProvenance(b, h))
            && (forall h :: ResolveArtifact(a, h) == ResolveArtifact(b, h))
            && (forall r :: ResolveTarget(a, r) == ResolveTarget(b, r))
  {
    hide Build, Parse;
    RoundTrip(s, m);
    RoundTrip(t, m);
  }

  lemma HeldByKey<T>(offers: seq<T>, check: T -> Option<Error>, key: T -> string, k: string, x: T)
    requires Load(offers, check, key).Ok?
    ensures var m := Load(offers, check, key).value;
            (k in m && m[k] == x) <==> (x in offers && key(x) == k)
    ensures x in offers ==> check(x).None?
  {
    LoadIs(offers, check, key);
    if x in offers {
      var i :| 0 <= i < |offers| && offers[i] == x;
      assert check(offers[i]).None?;
    }
  }

  lemma KeysDiffer(t: TargetRef, u: TargetRef)
    requires TargetKey(t) == TargetKey(u)
    ensures t == u
  {
    assert "self"[0] == 's' && ("alias:" + t.alias)[0] == 'a' && ("alias:" + u.alias)[0] == 'a';
    if !t.self && !u.self {
      TextsDiffer("alias:", t.alias, u.alias);
    }
  }

  /** The answers are the offers: nothing but what was offered resolves, and all that was offered does. */
  lemma AnswersAreOffers(s: Spec, m: Machine, c: Consequence, h: Handle, r: TargetRef)
    requires Build(s, m).Ok?
    ensures var a := Build(s, m).value;
            && (Allows(a, c) <==> c in s.consequences)
            && (forall x :: ResolveSubject(a, h) == Some(x) <==> x in s.subjects && x.handle == h)
            && (forall x :: ResolveReference(a, h) == Some(x) <==> x in s.references && x.handle == h)
            && (forall x :: ResolveTarget(a, r) == Some(x) <==> x in s.targets && x.requested == r)
            && (forall d :: ResolveArtifact(a, h) == Ok(d) <==> Artifact(h, d) in s.artifacts)
            && (forall e :: ResolveProvenance(a, h) == Some(e) <==> Provenance(h, e) in s.provenance)
  {
    hide Load, WireOf, CheckBounds, CheckReply, Name;
    HeldByKey(s.consequences, CheckConsequence, Name, Name(c), c);
    ResolvesSubjects(s, h);
    ResolvesReferences(s, h);
    ResolvesTargets(s, r);
    ResolvesArtifacts(s, h);
    ResolvesProvenance(s, h);
  }

  lemma ResolvesSubjects(s: Spec, h: Handle)
    requires Load(s.subjects, CheckSubject, SubjectKey).Ok?
    ensures var m := Load(s.subjects, CheckSubject, SubjectKey).value;
            forall x :: (h != "" && h in m && m[h] == x) <==> x in s.subjects && x.handle == h
  {
    hide Load;
    forall x
      ensures var m := Load(s.subjects, CheckSubject, SubjectKey).value;
              (h != "" && h in m && m[h] == x) <==> x in s.subjects && x.handle == h
    {
      HeldByKey(s.subjects, CheckSubject, SubjectKey, h, x);
    }
  }

  lemma ResolvesReferences(s: Spec, h: Handle)
    requires Load(s.references, CheckReference, ReferenceKey).Ok?
    ensures var m := Load(s.references, CheckReference, ReferenceKey).value;
            forall x :: (h != "" && h in m && m[h] == x) <==> x in s.references && x.handle == h
  {
    hide Load;
    forall x
      ensures var m := Load(s.references, CheckReference, ReferenceKey).value;
              (h != "" && h in m && m[h] == x) <==> x in s.references && x.handle == h
    {
      HeldByKey(s.references, CheckReference, ReferenceKey, h, x);
    }
  }

  lemma ResolvesTargets(s: Spec, r: TargetRef)
    requires Load(s.targets, TargetCheck(s.attachment), RequestedKey).Ok?
    ensures var m := Load(s.targets, TargetCheck(s.attachment), RequestedKey).value;
            forall x :: (r != NO_TARGET && TargetKey(r) in m && m[TargetKey(r)] == x) <==>
                x in s.targets && x.requested == r
  {
    hide Load, TargetKey;
    forall x: Target
      ensures var m := Load(s.targets, TargetCheck(s.attachment), RequestedKey).value;
              (r != NO_TARGET && TargetKey(r) in m && m[TargetKey(r)] == x) <==> x in s.targets && x.requested == r
    {
      HeldByKey(s.targets, TargetCheck(s.attachment), RequestedKey, TargetKey(r), x);
      if TargetKey(x.requested) == TargetKey(r) {
        KeysDiffer(x.requested, r);
      }
    }
  }

  lemma ResolvesArtifacts(s: Spec, h: Handle)
    requires Load(s.artifacts, CheckArtifact, ArtifactKey).Ok?
    ensures var m := Load(s.artifacts, CheckArtifact, ArtifactKey).value;
            forall d: Digest :: (h != "" && h in m && m[h].handle == h && m[h].digest != ZERO && m[h].digest == d) <==>
                Artifact(h, d) in s.artifacts
  {
    hide Load;
    var m := Load(s.artifacts, CheckArtifact, ArtifactKey).value;
    forall d: Digest
      ensures (h != "" && h in m && m[h].handle == h && m[h].digest != ZERO && m[h].digest == d) <==>
                Artifact(h, d) in s.artifacts
    {
      HeldByKey(s.artifacts, CheckArtifact, ArtifactKey, h, Artifact(h, d));
    }
  }

  lemma ResolvesProvenance(s: Spec, h: Handle)
    requires Load(s.provenance, CheckProvenance, ProvenanceKey).Ok?
    ensures var m := Load(s.provenance, CheckProvenance, ProvenanceKey).value;
            forall e: EventRef :: (h != "" && h in m && m[h].event == e) <==> Provenance(h, e) in s.provenance
  {
    hide Load;
    var m := Load(s.provenance, CheckProvenance, ProvenanceKey).value;
    forall e: EventRef
      ensures (h != "" && h in m && m[h].event == e) <==> Provenance(h, e) in s.provenance
    {
      HeldByKey(s.provenance, CheckProvenance, ProvenanceKey, h, Provenance(h, e));
      if h in m {
        HeldByKey(s.provenance, CheckProvenance, ProvenanceKey, h, m[h]);
      }
    }
  }
}
