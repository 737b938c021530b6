/**
 The Event an admitted peer delivery becomes (internal/agency, peer_event.go,
 event_receipt.go), and the parser of stored Events (event_parse.go).
 */
module PeerEvent {
  import opened Common
  import opened Orders
  import opened AgencyValues
  import P = PeerDelivery
  import V = ViewAuthority

  const VERSION: int := 3
  const MAX_BYTES: nat := 32 * 1024

  datatype Event = Event(
    id: Handle, acceptedAt: P.Time, sequence: nat, depth: nat, source: Handle, operationKey: Handle,
    requestDigest: Digest, kind: Label, payload: P.Payload, consequence: Consequence, subject: Option<V.Subject>,
    expected: Option<V.Reference>, targets: seq<V.Target>, artifacts: seq<Digest>, causation: seq<EventRef>,
    correlation: EventRef, inReplyTo: Digest)

  /** An Event with its canonical bytes and their digest. */
  datatype SealedEvent = SealedEvent(event: Event, canonical: Bytes, digest: Digest)

  datatype Stamp = Stamp(id: Handle, acceptedAt: P.Time, sequence: nat, depth: nat)

  datatype SubjectWire = SubjectWire(handlingID: string, head: RefWire, fence: nat, revision: nat)
  datatype ExpectedWire = ExpectedWire(absent: bool, key: string, head: Option<RefWire>)

  datatype EventWire = EventWire(
    version: int, id: string, acceptedAt: string, sequence: nat, depth: nat, source: string, operationKey: string,
    requestDigest: string, consequence: string, subject: Option<SubjectWire>, expected: Option<ExpectedWire>,
    targets: seq<V.ResolvedWire>, inReplyTo: string, kind: string, payload: string, artifacts: seq<string>,
    causation: seq<RefWire>, correlation: Option<RefWire>)

  datatype Machine = Machine(codec: Codec<EventWire>, sum: Bytes -> Digest, peers: P.Machine)

  ghost predicate Sound(m: Machine) {
    Faithful(m.codec) && P.Sound(m.peers)
  }

  // ---- wire ----

  function ShowTargets(ts: seq<V.Target>): (r: seq<V.ResolvedWire>)
    ensures |r| == |ts| && forall i :: 0 <= i < |r| ==> r[i] == V.ShowResolved(ts[i])
  {
    if ts == [] then [] else ShowTargets(ts[..|ts| - 1]) + [V.ShowResolved(ts[|ts| - 1])]
  }

  function ShowSubject(s: V.Subject): SubjectWire {
    SubjectWire(s.handlingID, PrintRef(s.head), s.fence, s.revision)
  }

  function ShowExpected(r: V.Reference): ExpectedWire {
    ExpectedWire(r.absent, r.key, P.PrintOptional(r.head))
  }

  function WireOf(e: Event, c: P.Calendar): EventWire {
    EventWire(VERSION, e.id, c.format(e.acceptedAt), e.sequence, e.depth, e.source, e.operationKey,
              DigestText(e.requestDigest), Name(e.consequence),
              if e.subject.Some? then Some(ShowSubject(e.subject.value)) else None,
              if e.expected.Some? then Some(ShowExpected(e.expected.value)) else None, ShowTargets(e.targets),
              P.PrintReply(e.inReplyTo), e.kind, e.payload, P.PrintDigests(e.artifacts), P.PrintRefs(e.causation),
              P.PrintOptional(e.correlation))
  }

  /** sealEvent. */
  function Seal(e: Event, m: Machine): Result<SealedEvent> {
    var canonical := m.codec.encode(WireOf(e, m.peers.calendar));
    if |canonical| > MAX_BYTES then Err(Limit) else Ok(SealedEvent(e, canonical, m.sum(canonical)))
  }

  // ---- the shape of an Event ----

  function Count(ts: seq<V.Target>, d: V.Destination): nat {
    if ts == [] then 0 else Count(ts[..|ts| - 1], d) + if ts[|ts| - 1].destination == d then 1 else 0
  }

  /** validateParsedEventShape. */
  function CheckShape(e: Event): Option<Error> {
    var subject, reference := e.subject.Some?, e.expected.Some?;
    var local, remote := Count(e.targets, V.Local), Count(e.targets, V.Remote);
    var reply, correlation := e.inReplyTo != ZERO, e.correlation != NO_REF;
    match e.consequence
    case CreateHandlings =>
      if subject || reference || |e.targets| == 0 || reply || (remote > 0 && local == 0) then Some(Invariant) else None
    case AdvanceHandling =>
      if !subject || reference || reply then Some(Invariant) else None
    case PublishReference =>
      if subject || !reference || !e.expected.value.absent || |e.targets| != 0 || |e.artifacts| != 1 || reply
          then Some(Invariant) else None
    case SupersedeReference =>
      if subject || !reference || e.expected.value.absent || |e.targets| != 0 || |e.artifacts| != 1 || reply
          then Some(Invariant) else None
    case RetractReference =>
      if subject || !reference || e.expected.value.absent || |e.targets| != 0 || |e.artifacts| != 0 || reply
          then Some(Invariant) else None
    case NoConsequence => Some(Invalid)
    case _ =>
      if Terminal(e.consequence) then
        if !subject || reference then Some(Invariant)
        else if e.consequence.ResolveCompleted? && |e.artifacts| == 0 then Some(Invariant)
        else if reply then if |e.targets| != 1 || remote != 1 || !correlation then Some(Invariant) else None
        else if remote > 0 && local == 0 then Some(Invariant) else None
      else if subject || reference || |e.targets| != 0 || !reply || !correlation || |e.causation| != 1 || e.depth == 0
      then Some(Invariant)
      else if ParseDeliveryID(e.operationKey).Err? then Some(Invariant)
      else if e.consequence.ObserveCompleted? && |e.artifacts| == 0 then Some(Invariant)
      else None
  }

  // ---- NewPeerEvent ----

  /** validateDecidedPeerEffect. */
  function CheckEffect(d: P.Delivery, localTarget: Handle, c: Consequence, targets: seq<V.Target>): Option<Error> {
    if !c.CreateHandlings? && !Observation(c) then Some(Invalid)
    else if |targets| > 1 then Some(Limit)
    else if exists i :: 0 <= i < |targets| && !ExactTarget(d, localTarget, targets[i]) then Some(Invariant)
    else None
  }

  predicate ExactTarget(d: P.Delivery, localTarget: Handle, t: V.Target) {
    && t.destination.Local? && t.localPrincipal == localTarget && !t.requested.self
    && t.requested.alias == d.spec.targetAlias && t.remoteRoute == "" && t.remoteAlias == ""
  }

  /** peerEventInputs: the digests of a verified delivery's artifacts. */
  function Inputs(v: P.Verified, m: Machine): Result<seq<Digest>> {
    if v.source == "" || v.target == "" || !P.Sealed(v.delivery, m.peers) then Err(Invalid)
    else
      var complete := P.Complete(v.delivery.spec.artifacts, v.artifacts);
      if complete.Err? then Err(complete.error) else Ok(Digests(complete.value))
  }

  function Digests(s: seq<P.VerifiedArtifact>): (r: seq<Digest>)
    ensures |r| == |s| && forall i :: 0 <= i < |r| ==> r[i] == s[i].digest
  {
    if s == [] then [] else Digests(s[..|s| - 1]) + [s[|s| - 1].digest]
  }

  function New(v: P.Verified, stamp: Stamp, c: Consequence, targets: seq<V.Target>, m: Machine): Result<SealedEvent> {
    var artifacts := Inputs(v, m);
    if artifacts.Err? then Err(artifacts.error)
    else if stamp.id == "" || stamp.sequence == 0 then Err(Invalid)
    else if stamp.depth != v.delivery.spec.depth then Err(Invariant)
    else if !P.Canonical(stamp.acceptedAt) then Err(Invalid)
    else
      var operationKey := NewHandle(DeliveryText(v.delivery.id));
      if operationKey.Err? then Err(operationKey.error)
      else if CheckEffect(v.delivery, v.target, c, targets).Some?
          then Err(CheckEffect(v.delivery, v.target, c, targets).value)
      else
        var e := EventOf(v, stamp, c, targets, operationKey.value, artifacts.value);
        if CheckShape(e).Some? then Err(CheckShape(e).value) else Seal(e, m)
  }

  function EventOf(v: P.Verified, stamp: Stamp, c: Consequence, targets: seq<V.Target>, operationKey: Handle,
                   artifacts: seq<Digest>): Event {
    var s := v.delivery.spec;
    Event(stamp.id, stamp.acceptedAt, stamp.sequence, s.depth, v.source, operationKey, v.delivery.envelope, s.kind,
          s.payload, c, None, None, targets, artifacts, [s.originEvent], s.correlation, s.inReplyTo)
  }

  // ---- the parser ----

  function ParseSubject(w: Option<SubjectWire>): Result<Option<V.Subject>> {
    if w.None? then Ok(None) else
    var handlingID := NewHandle(w.value.handlingID);
    if handlingID.Err? then Err(handlingID.error) else
    var head := ParseRef(w.value.head);
    if head.Err? then Err(head.error)
    else if w.value.fence == 0 then Err(Invalid)
    else Ok(Some(V.Subject("", handlingID.value, head.value, w.value.fence, w.value.revision)))
  }

  function ParseExpected(w: Option<ExpectedWire>): Result<Option<V.Reference>> {
    if w.None? then Ok(None) else
    var key := NewRefKey(w.value.key);
    if key.Err? then Err(key.error)
    else if w.value.absent then
      if w.value.head.Some? then Err(Invalid) else Ok(Some(V.Reference(true, "", key.value, NO_REF)))
    else if w.value.head.None? then Err(Invalid)
    else
      var head := ParseRef(w.value.head.value);
      if head.Err? then Err(head.error) else Ok(Some(V.Reference(false, "", key.value, head.value)))
  }

  /** One target of an Event: resolved, and not as it was requested. */
  function ParseTarget(w: V.ResolvedWire): Result<V.Target> {
    if w.destination == "local" then
      if w.remoteRoute != "" || w.remoteAlias != "" then Err(Invalid)
      else
        var principal := NewHandle(w.localPrincipal);
        if principal.Err? then Err(principal.error)
            else Ok(V.Target(V.Requested(false, ""), V.Local, principal.value, "", ""))
    else if w.destination == "remote" then
      if w.localPrincipal != "" then Err(Invalid)
      else
        var route := NewHandle(w.remoteRoute);
        if route.Err? then Err(route.error)
        else
          var alias := NewHandle(w.remoteAlias);
          if alias.Err? then Err(alias.error)
              else Ok(V.Target(V.Requested(false, ""), V.Remote, "", route.value, alias.value))
    else Err(Invalid)
  }

  /** Parsed one after another, none with a destination seen before. */
  function ParseTargetsFrom(ws: seq<V.ResolvedWire>, seen: seq<V.Target>): Result<seq<V.Target>> {
    if ws == [] then Ok(seen)
    else
      var t := ParseTarget(ws[0]);
      if t.Err? then Err(t.error)
      else if t.value in seen then Err(Invalid)
      else ParseTargetsFrom(ws[1..], seen + [t.value])
  }

  function ParseTargets(ws: seq<V.ResolvedWire>): Result<seq<V.Target>> {
    if |ws| > P.MAX_SUCCESSORS then Err(Limit) else ParseTargetsFrom(ws, [])
  }

  /** parseEventTargets. */
  method ParseEventTargets(ws: seq<V.ResolvedWire>) returns (r: Result<seq<V.Target>>)
    ensures r == ParseTargets(ws)
  {
    if |ws| > P.MAX_SUCCESSORS {
      return Err(Limit);
    }
    var result: seq<V.Target> := [];
    var i := 0;
    assert ws[0..] == ws;
    while i < |ws|
      invariant i <= |ws| && ParseTargetsFrom(ws[i..], result) == ParseTargetsFrom(ws, [])
    {
      assert ws[i..][0] == ws[i] && ws[i..][1..] == ws[i + 1..];
      var t := ParseTarget(ws[i]);
      if t.Err? {
        return Err(t.error);
      }
      if t.value in result {
        return Err(Invalid);
      }
      result := result + [t.value];
      i := i + 1;
    }
    return Ok(result);
  }

  function ParseCausationFrom(ws: seq<RefWire>, seen: seq<EventRef>): Result<seq<EventRef>> {
    if ws == [] then Ok(seen)
    else
      var r := ParseRef(ws[0]);
      if r.Err? then Err(r.error)
      else if r.value in seen then Err(Invalid)
      else ParseCausationFrom(ws[1..], seen + [r.value])
  }

  function ParseCausation(ws: seq<RefWire>): Result<seq<EventRef>> {
    if |ws| > P.MAX_CAUSATION then Err(Limit) else ParseCausationFrom(ws, [])
  }

  /** parseEventCausation. */
  method ParseEventCausation(ws: seq<RefWire>) returns (r: Result<seq<EventRef>>)
    ensures r == ParseCausation(ws)
  {
    if |ws| > P.MAX_CAUSATION {
      return Err(Limit);
    }
    var result: seq<EventRef> := [];
    var i := 0;
    assert ws[0..] == ws;
    while i < |ws|
      invariant i <= |ws| && ParseCausationFrom(ws[i..], result) == ParseCausationFrom(ws, [])
    {
      assert ws[i..][0] == ws[i] && ws[i..][1..] == ws[i + 1..];
      var ref := ParseRef(ws[i]);
      if ref.Err? {
        return Err(ref.error);
      }
      if ref.value in result {
        return Err(Invalid);
      }
      result := result + [ref.value];
      i := i + 1;
    }
    return Ok(result);
  }

  function ParseArtifacts(ws: seq<string>): Result<seq<Digest>> {
    var digests := ParseAll(ws, ParseDigest);
    if digests.Err? then Err(digests.error) else P.Artifacts(digests.value)
  }

  /** The fields of an Event that are single values. */
  function ParseMachine(w: EventWire, c: P.Calendar): Result<Event> {
    if w.version != VERSION then Err(Invalid) else
    var id := NewHandle(w.id);
    if id.Err? then Err(id.error) else
    var acceptedAt := P.ParseTime(c, w.acceptedAt);
    if acceptedAt.Err? then Err(acceptedAt.error)
    else if w.sequence == 0 then Err(Invalid)
    else if w.depth > P.MAX_DEPTH then Err(Limit) else
    var source := NewHandle(w.source);
    if source.Err? then Err(source.error) else
    var operationKey := NewHandle(w.operationKey);
    if operationKey.Err? then Err(operationKey.error) else
    var requestDigest := ParseDigest(w.requestDigest);
    if requestDigest.Err? then Err(requestDigest.error) else
    var consequence := ParseConsequence(w.consequence);
    if consequence.Err? then Err(consequence.error) else
    var kind := NewLabel(w.kind);
    if kind.Err? then Err(kind.error) else
    var payload := P.NewPayload(w.payload);
    if payload.Err? then Err(payload.error) else
    Ok(Event(id.value, acceptedAt.value, w.sequence, w.depth, source.value, operationKey.value,
             requestDigest.value, kind.value, payload.value, consequence.value, None, None, [], [], [], NO_REF, ZERO))
  }

  /** eventFromWire. */
  function FromWire(w: EventWire, m: Machine): Result<SealedEvent> {
    var machine := ParseMachine(w, m.peers.calendar);
    if machine.Err? then Err(machine.error) else
    var subject := ParseSubject(w.subject);
    if subject.Err? then Err(subject.error) else
    var expected := ParseExpected(w.expected);
    if expected.Err? then Err(expected.error) else
    var targets := ParseTargets(w.targets);
    if targets.Err? then Err(targets.error) else
    var artifacts := ParseArtifacts(w.artifacts);
    if artifacts.Err? then Err(artifacts.error) else
    var causation := ParseCausation(w.causation);
    if causation.Err? then Err(causation.error) else
    var correlation := P.ParseOptional(w.correlation);
    if correlation.Err? then Err(correlation.error) else
    var inReplyTo := P.ParseReply(w.inReplyTo);
    if inReplyTo.Err? then Err(inReplyTo.error) else
    var e := machine.value.(subject := subject.value, expected := expected.value, targets := targets.value,
                            artifacts := artifacts.value, causation := causation.value,
                            correlation := correlation.value, inReplyTo := inReplyTo.value);
    if CheckShape(e).Some? then Err(CheckShape(e).value) else Seal(e, m)
  }

  /** ParseEventCanonicalJSON. */
  function Parse(data: Bytes, m: Machine): Result<SealedEvent> {
    var w := DecodeObject(m.codec, data, MAX_BYTES);
    if w.Err? then Err(w.error)
    else
      var r := FromWire(w.value, m);
      if r.Err? then r else if r.value.canonical == data then r else Err(Invariant)
  }

  // ---- an Event of a peer is accepted by the parser ----

  /** A delivery that NewPeerDelivery made. */
  ghost predicate Made(d: P.Delivery, m: P.Machine) {
    exists route: Handle, s: P.Spec :: P.Build(route, s, m) == Ok(d)
  }

  lemma MadeIsNormal(d: P.Delivery, m: P.Machine)
    requires Made(d, m)
    ensures P.Normal(d.spec)
  {
    hide P.Normal;
    var route: Handle, s: P.Spec :| P.Build(route, s, m) == Ok(d);
    P.BuiltIsNormal(route, s, m);
  }

  /** A target without what was asked for. */
  function Stripped(t: V.Target): V.Target {
    t.(requested := V.Requested(false, ""))
  }

  function StrippedAll(ts: seq<V.Target>): (r: seq<V.Target>)
    ensures |r| == |ts| && forall i :: 0 <= i < |r| ==> r[i] == Stripped(ts[i])
  {
    if ts == [] then [] else StrippedAll(ts[..|ts| - 1]) + [Stripped(ts[|ts| - 1])]
  }

  lemma TargetsBack(d: P.Delivery, localTarget: Handle, c: Consequence, ts: seq<V.Target>)
    requires localTarget != "" && CheckEffect(d, localTarget, c, ts).None?
    ensures ParseTargets(ShowTargets(ts)) == Ok(StrippedAll(ts))
    ensures Count(StrippedAll(ts), V.Local) == Count(ts, V.Local)
    ensures Count(StrippedAll(ts), V.Remote) == Count(ts, V.Remote)
    ensures ShowTargets(StrippedAll(ts)) == ShowTargets(ts)
  {
    if |ts| == 1 {
      assert ExactTarget(d, localTarget, ts[0]);
      var ws, rs := ShowTargets(ts), StrippedAll(ts);
      assert ws == [V.ShowResolved(ts[0])] && rs == [Stripped(ts[0])];
      assert ParseTarget(ws[0]) == Ok(rs[0]);
      assert ParseTargetsFrom(ws[1..], [] + [rs[0]]) == Ok([rs[0]]);
      assert ts[..0] == [] && rs[..0] == [];
      assert Count(ts, V.Local) == 1 && Count(rs, V.Local) == 1;
    }
  }

  lemma CausationBack(r: EventRef)
    requires r != NO_REF
    ensures ParseCausation(P.PrintRefs([r])) == Ok([r])
  {
    RefBack(r);
    var ws := P.PrintRefs([r]);
    assert ws == [PrintRef(r)] && ws[1..] == [];
    var seen: seq<EventRef> := [];
    assert seen + [r] == [r];
    assert ParseCausationFrom(ws[1..], seen + [r]) == Ok([r]);
  }

  lemma ArtifactsBack(s: P.Spec)
    requires P.Normal(s)
    ensures ParseArtifacts(P.PrintDigests(s.artifacts)) == Ok(s.artifacts)
  {
    hide P.CheckShape, P.CheckTimes, P.BadArtifacts, P.BadCausation, P.StrictlyBy, ParseAll, P.SortBy;
    P.NoZeros(s);
    P.DigestsBack(s.artifacts);
    P.SortFixes(s.artifacts, P.DigestLess);
  }

  /** The artifacts of an Event are those of the delivery. */
  lemma InputsAre(v: P.Verified, m: Machine)
    requires Inputs(v, m).Ok?
    ensures Inputs(v, m).value == v.delivery.spec.artifacts
  {
    hide P.Complete, P.Sealed;
    P.CompleteIs(v.delivery.spec.artifacts, v.artifacts);
  }

  lemma KeyIsToken(d: Digest)
    ensures IsToken(DeliveryText(d), HANDLE_MAX, false)
  {
    var s := DeliveryText(d);
    assert |s| == 73 && s[|s| - 1] == d[63];
    forall i | 0 <= i < |s|
      ensures TokenChar(s[i], i == 0, false)
    {
      if i >= |DELIVERY| {
        assert s[i] == d[i - |DELIVERY|] && d[i - |DELIVERY|] in d;
      } else {
        assert i == 0 || i == 1 || i == 2 || i == 3 || i == 4 || i == 5 || i == 6 || i == 7 || i == 8;
        assert s[i] == "delivery:"[i];
      }
    }
    assert d[63] in d;
  }

  lemma ShapeStripped(e: Event, targets: seq<V.Target>)
    requires |targets| == |e.targets| && Count(targets, V.Local) == Count(e.targets, V.Local)
    requires Count(targets, V.Remote) == Count(e.targets, V.Remote)
    ensures CheckShape(e.(targets := targets)) == CheckShape(e)
  {
    hide Count;
  }

  /**
   Every Event made of a peer's delivery is accepted by the parser of stored
   Events with the same bytes and the same digest; only what its targets were
   asked for as, which is not stored, is gone.
   */
  lemma PeerEventAccepted(v: P.Verified, stamp: Stamp, c: Consequence, targets: seq<V.Target>, m: Machine)
    requires Sound(m) && Made(v.delivery, m.peers) && New(v, stamp, c, targets, m).Ok?
    ensures var e := New(v, stamp, c, targets, m).value;
            Parse(e.canonical, m) == Ok(e.(event := e.event.(targets := StrippedAll(e.event.targets))))
  {
    hide Made, Inputs, CheckEffect, CheckShape, WireOf, FromWire, P.Normal;
    var sealed := New(v, stamp, c, targets, m).value;
    var e := sealed.event;
    MadeIsNormal(v.delivery, m.peers);
    InputsAre(v, m);
    InputsSealed(v, m);
    TargetsBack(v.delivery, v.target, c, targets);
    var e' := e.(targets := StrippedAll(targets));
    ShapeStripped(e, StrippedAll(targets));
    WireStripped(e, StrippedAll(targets), m.peers.calendar);
    DecodeBack(m.codec, WireOf(e, m.peers.calendar), MAX_BYTES);
    EventBack(v, stamp, c, targets, e, m);
  }

  lemma InputsSealed(v: P.Verified, m: Machine)
    requires Inputs(v, m).Ok?
    ensures v.source != "" && v.target != "" && v.delivery.envelope != ZERO && v.delivery.id != ZERO
  {
    hide P.Complete;
  }

  lemma WireStripped(e: Event, targets: seq<V.Target>, c: P.Calendar)
    requires ShowTargets(targets) == ShowTargets(e.targets)
    ensures WireOf(e.(targets := targets), c) == WireOf(e, c)
  {
  }

  lemma NormalFacts(s: P.Spec)
    requires P.Normal(s)
    ensures s.originEvent != NO_REF && s.kind != "" && s.depth <= P.MAX_DEPTH
  {
    hide P.StrictlyBy, P.BadArtifacts, P.BadCausation, P.CheckTimes;
  }

  /** The wire of such an Event, parsed. */
  lemma EventBack(v: P.Verified, stamp: Stamp, c: Consequence, targets: seq<V.Target>, e: Event, m: Machine)
    requires Sound(m) && P.Normal(v.delivery.spec) && v.source != "" && v.target != "" && v.delivery.envelope != ZERO
    requires stamp.id != "" && stamp.sequence > 0 && P.Canonical(stamp.acceptedAt)
    requires CheckEffect(v.delivery, v.target, c, targets).None?
    requires IsToken(DeliveryText(v.delivery.id), HANDLE_MAX, false)
    requires e == EventOf(v, stamp, c, targets, DeliveryText(v.delivery.id), v.delivery.spec.artifacts)
    requires CheckShape(e.(targets := StrippedAll(targets))).None?
    ensures FromWire(WireOf(e, m.peers.calendar), m) == Seal(e.(targets := StrippedAll(targets)), m)
  {
    hide P.Normal, CheckEffect, CheckShape, ParseTargets, ParseArtifacts, ParseCausation, P.ParseOptional, P.ParseReply;
    hide ParseMachine, Seal, DigestText, Name, PrintRef, Sound;
    MachineBack(v, stamp, c, targets, e, m);
    NormalFacts(v.delivery.spec);
    TargetsBack(v.delivery, v.target, c, targets);
    ArtifactsBack(v.delivery.spec);
    CausationBack(v.delivery.spec.originEvent);
    P.OptionalBack(v.delivery.spec.correlation);
    P.ReplyBack(v.delivery.spec.inReplyTo);
  }

  lemma MachineBack(v: P.Verified, stamp: Stamp, c: Consequence, targets: seq<V.Target>, e: Event, m: Machine)
    requires Sound(m) && P.Normal(v.delivery.spec) && v.source != "" && v.delivery.envelope != ZERO
    requires stamp.id != "" && stamp.sequence > 0 && P.Canonical(stamp.acceptedAt)
    requires CheckEffect(v.delivery, v.target, c, targets).None?
    requires IsToken(DeliveryText(v.delivery.id), HANDLE_MAX, false)
    requires e == EventOf(v, stamp, c, targets, DeliveryText(v.delivery.id), v.delivery.spec.artifacts)
    ensures ParseMachine(WireOf(e, m.peers.calendar), m.peers.calendar)
            == Ok(e.(targets := [], artifacts := [], causation := [], correlation := NO_REF, inReplyTo := ZERO))
  {
    hide P.Normal, CheckEffect, P.ParseTime, ParseDigest, ParseConsequence, Sound, DigestText, Name, PrintRef;
    SoundParts(m);
    NormalFacts(v.delivery.spec);
    P.TimeBack(m.peers.calendar, stamp.acceptedAt);
    DigestBack(v.delivery.envelope);
    EffectNamed(v.delivery, v.target, c, targets);
    ConsequenceBack(c);
  }

  lemma SoundParts(m: Machine)
    requires Sound(m)
    ensures Faithful(m.codec) && P.Reads(m.peers.calendar)
  {
  }

  lemma EffectNamed(d: P.Delivery, localTarget: Handle, c: Consequence, ts: seq<V.Target>)
    requires CheckEffect(d, localTarget, c, ts).None?
    ensures !c.NoConsequence?
  {
  }
}
