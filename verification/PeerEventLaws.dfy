/**
 What the Event of a peer's delivery says, field by field, and from which
 inputs one is made.
 */
module PeerEventLaws {
  import opened Common
  import opened AgencyValues
  import opened PeerEvent
  import P = PeerDelivery
  import L = PeerDeliveryLaws
  import V = ViewAuthority

  /** The Event says what the delivery says, under the stamp, for what was decided. */
  ghost predicate Says(e: Event, v: P.Verified, stamp: Stamp, c: Consequence, targets: seq<V.Target>) {
    var s := v.delivery.spec;
    && e.id == stamp.id && e.acceptedAt == stamp.acceptedAt && e.sequence == stamp.sequence && e.depth == s.depth
    && e.source == v.source && ParseDeliveryID(e.operationKey) == Ok(v.delivery.id)
    && e.requestDigest == v.delivery.envelope && e.kind == s.kind && e.payload == s.payload
    && e.consequence == c && e.subject == None && e.expected == None && e.targets == targets
    && e.artifacts == s.artifacts && e.causation == [s.originEvent] && e.correlation == s.correlation
    && e.inReplyTo == s.inReplyTo
  }

  /** The wire of such an Event, from the inputs. */
  ghost predicate Prints(w: EventWire, v: P.Verified, stamp: Stamp, c: Consequence, targets: seq<V.Target>,
                         calendar: P.Calendar) {
    var s := v.delivery.spec;
    && w.version == 3 && w.id == stamp.id && w.acceptedAt == calendar.format(stamp.acceptedAt)
    && w.sequence == stamp.sequence && w.depth == s.depth && w.source == v.source
    && w.operationKey == "delivery:" + v.delivery.id && w.requestDigest == "sha256:" + v.delivery.envelope
    && w.consequence == Name(c) && w.subject == None && w.expected == None
    && |w.targets| == |targets|
    && (forall i :: 0 <= i < |targets| ==> w.targets[i] == V.ResolvedWire("local", v.target, "", ""))
    && w.inReplyTo == (if s.inReplyTo == ZERO then "" else "delivery:" + s.inReplyTo)
    && w.kind == s.kind && w.payload == s.payload && |w.artifacts| == |s.artifacts|
    && (forall i :: 0 <= i < |s.artifacts| ==> w.artifacts[i] == "sha256:" + s.artifacts[i])
    && w.causation == [RefWire(s.originEvent.id, "sha256:" + s.originEvent.digest)]
    && w.correlation == (if s.correlation == NO_REF then None
                         else Some(RefWire(s.correlation.id, "sha256:" + s.correlation.digest)))
  }

  /** The Event that is made says what the delivery says, and is sealed under the digest of bytes that print it. */
  lemma EventSays(v: P.Verified, stamp: Stamp, c: Consequence, targets: seq<V.Target>, m: Machine)
    requires Faithful(m.codec) && New(v, stamp, c, targets, m).Ok?
    ensures var e := New(v, stamp, c, targets, m).value;
            && Says(e.event, v, stamp, c, targets)
            && e.digest == m.sum(e.canonical) && |e.canonical| <= 32 * 1024
            && m.codec.decode(e.canonical).Some?
            && Prints(m.codec.decode(e.canonical).value, v, stamp, c, targets, m.peers.calendar)
  {
    hide New, Inputs, CheckEffect, WireOf, Says, Prints;
    NewParts(v, stamp, c, targets, m);
    var e := New(v, stamp, c, targets, m).value.event;
    MadeSays(v, stamp, c, targets, e);
    EventPrints(e, v, stamp, c, targets, m);
  }

  lemma NewParts(v: P.Verified, stamp: Stamp, c: Consequence, targets: seq<V.Target>, m: Machine)
    requires New(v, stamp, c, targets, m).Ok?
    ensures v.delivery.id != ZERO && IsToken(DeliveryText(v.delivery.id), HANDLE_MAX, false)
    ensures CheckEffect(v.delivery, v.target, c, targets).None?
    ensures var e := New(v, stamp, c, targets, m).value;
            && e.event == EventOf(v, stamp, c, targets, DeliveryText(v.delivery.id), v.delivery.spec.artifacts)
            && e.canonical == m.codec.encode(WireOf(e.event, m.peers.calendar)) && e.digest == m.sum(e.canonical)
            && |e.canonical| <= 32 * 1024
  {
    hide Inputs, CheckEffect, CheckShape, WireOf, EventOf;
    InputsAre(v, m);
    InputsSealed(v, m);
    KeyIsToken(v.delivery.id);
  }

  lemma EventPrints(e: Event, v: P.Verified, stamp: Stamp, c: Consequence, targets: seq<V.Target>, m: Machine)
    requires Says(e, v, stamp, c, targets) && e.operationKey == DeliveryText(v.delivery.id)
    requires CheckEffect(v.delivery, v.target, c, targets).None?
    ensures Prints(WireOf(e, m.peers.calendar), v, stamp, c, targets, m.peers.calendar)
  {
    forall i | 0 <= i < |targets|
      ensures V.ShowResolved(targets[i]) == V.ResolvedWire("local", v.target, "", "")
    {
      assert ExactTarget(v.delivery, v.target, targets[i]);
    }
    var refs := P.PrintRefs([v.delivery.spec.originEvent]);
    assert refs == [PrintRef(v.delivery.spec.originEvent)];
  }

  /** The inputs print one wire. */
  lemma OneWire(w: EventWire, w': EventWire, v: P.Verified, stamp: Stamp, c: Consequence, targets: seq<V.Target>,
                calendar: P.Calendar)
    requires Prints(w, v, stamp, c, targets, calendar) && Prints(w', v, stamp, c, targets, calendar)
    ensures w == w'
  {
    assert w.targets == w'.targets && w.artifacts == w'.artifacts;
  }

  // ---- the evidence for the artifacts ----

  /** Each required artifact was verified, in some order, and nothing else was. */
  ghost predicate Evidence(required: seq<Digest>, artifacts: seq<P.VerifiedArtifact>) {
    exists r :: multiset(r) == multiset(artifacts) && Matches(required, r)
  }

  ghost predicate Matches(required: seq<Digest>, r: seq<P.VerifiedArtifact>) {
    |r| == |required| && forall i :: 0 <= i < |r| ==> Verifies(required[i], r[i])
  }

  predicate Verifies(d: Digest, a: P.VerifiedArtifact) {
    a.digest == d && d != ZERO && 0 <= a.size <= 4 * 1024 * 1024 && a.verifiedAt.Some?
  }

  lemma {:induction false} CheckedIff(required: seq<Digest>, s: seq<P.VerifiedArtifact>, i: nat)
    requires |s| == |required| && i <= |s| && P.StrictlyBy(required, P.DigestLess)
    requires forall j :: 0 <= j < i ==> s[j].digest == required[j]
    ensures P.CheckComplete(required, s, i).None? <==> forall j :: i <= j < |s| ==> Verifies(required[j], s[j])
    decreases |s| - i
  {
    hide P.DigestLess;
    if i < |s| {
      if i > 0 {
        assert P.DigestLess(required[i - 1], required[i]) && !P.DigestLess(required[i], required[i - 1]);
      }
      if s[i].digest == required[i] {
        CheckedIff(required, s, i + 1);
      }
    }
  }

  /** The artifacts are complete exactly when each required one, and no other, has its evidence. */
  lemma CompleteIff(required: seq<Digest>, artifacts: seq<P.VerifiedArtifact>)
    requires P.StrictlyBy(required, P.DigestLess)
    ensures P.Complete(required, artifacts).Ok? <==> Evidence(required, artifacts)
  {
    hide P.SortBy, P.CheckComplete, P.DigestLess, Verifies;
    var sorted := P.SortBy(artifacts, P.ArtifactLess);
    if |artifacts| == |required| {
      CheckedIff(required, sorted, 0);
      assert multiset(sorted) == multiset(artifacts);
      assert Matches(required, sorted) <==> P.CheckComplete(required, sorted, 0).None?;
    }
    if Evidence(required, artifacts) {
      var r :| multiset(r) == multiset(artifacts) && Matches(required, r);
      SameMembers(r, artifacts);
      MatchedAscends(required, r);
      L.SortIs(artifacts, r, P.ArtifactLess);
    }
  }

  lemma MatchedAscends(required: seq<Digest>, r: seq<P.VerifiedArtifact>)
    requires P.StrictlyBy(required, P.DigestLess) && Matches(required, r)
    ensures P.StrictlyBy(r, P.ArtifactLess)
  {
    hide P.DigestLess;
  }

  // ---- when an Event is made ----

  /** The delivery is complete, sealed under its own envelope, with both Principals. */
  ghost predicate Verified(v: P.Verified, m: Machine) {
    && v.source != "" && v.target != "" && v.delivery.id != ZERO && v.delivery.envelope != ZERO
    && v.delivery.canonical != []
    && v.delivery.canonical == m.peers.codec.encode(P.WireOf(v.delivery.id, v.delivery.spec, m.peers.calendar))
    && v.delivery.envelope == m.peers.hash("mnemon.peer-delivery-envelope.v1", v.delivery.canonical)
    && Evidence(v.delivery.spec.artifacts, v.artifacts)
  }

  predicate Stamped(stamp: Stamp, depth: nat) {
    stamp.id != "" && stamp.sequence > 0 && stamp.depth == depth && P.Canonical(stamp.acceptedAt)
  }

  predicate IsLocal(t: V.Target, alias: Handle, principal: Handle) {
    && !t.requested.self && t.requested.alias == alias && t.destination == V.Local && t.localPrincipal == principal
    && t.remoteRoute == "" && t.remoteAlias == ""
  }

  /**
   What may be decided: to create a Handling of the delivery's alias at the
   local target, of what is no reply, or to observe a reply, a completed one
   with an artifact.
   */
  ghost predicate Decided(v: P.Verified, c: Consequence, targets: seq<V.Target>) {
    var s := v.delivery.spec;
    match c
    case CreateHandlings =>
      s.inReplyTo == ZERO && |targets| == 1 && IsLocal(targets[0], s.targetAlias, v.target)
    case ObserveCompleted => targets == [] && s.inReplyTo != ZERO && s.correlation != NO_REF && s.artifacts != []
    case ObserveDeclined => targets == [] && s.inReplyTo != ZERO && s.correlation != NO_REF
    case ObserveUnresolved => targets == [] && s.inReplyTo != ZERO && s.correlation != NO_REF
    case _ => false
  }

  lemma EffectIff(v: P.Verified, stamp: Stamp, c: Consequence, targets: seq<V.Target>, e: Event)
    requires Says(e, v, stamp, c, targets) && P.Normal(v.delivery.spec)
    ensures CheckEffect(v.delivery, v.target, c, targets).None? && CheckShape(e).None? <==> Decided(v, c, targets)
  {
    hide ParseDeliveryID, P.StrictlyBy, P.BadArtifacts, P.BadCausation, P.CheckTimes;
    if |targets| == 1 {
      assert targets == [targets[0]] && targets[..0] == [];
      assert ExactTarget(v.delivery, v.target, targets[0]) <==>
          IsLocal(targets[0], v.delivery.spec.targetAlias, v.target);
    }
  }

  /** An Event is made exactly of a verified delivery, a stamp of its depth, a decided effect, and a wire that fits. */
  lemma MadeIff(v: P.Verified, stamp: Stamp, c: Consequence, targets: seq<V.Target>, m: Machine)
    requires P.Normal(v.delivery.spec) || v.delivery.id == ZERO
    ensures New(v, stamp, c, targets, m).Ok? <==>
              && Verified(v, m) && Stamped(stamp, v.delivery.spec.depth) && Decided(v, c, targets)
              && exists w :: Prints(w, v, stamp, c, targets, m.peers.calendar) && |m.codec.encode(w)| <= 32 * 1024
  {
    hide Inputs, CheckEffect, CheckShape, WireOf, Verified, Decided, Prints, Says;
    InputsIff(v, m);
    if Inputs(v, m).Ok? {
      InputsAre(v, m);
      InputsSealed(v, m);
      KeyIsToken(v.delivery.id);
      var e := EventOf(v, stamp, c, targets, DeliveryText(v.delivery.id), v.delivery.spec.artifacts);
      if Stamped(stamp, v.delivery.spec.depth) {
        MadeSays(v, stamp, c, targets, e);
        EffectIff(v, stamp, c, targets, e);
        if CheckEffect(v.delivery, v.target, c, targets).None? {
          EventPrints(e, v, stamp, c, targets, m);
          forall w | Prints(w, v, stamp, c, targets, m.peers.calendar)
            ensures w == WireOf(e, m.peers.calendar)
          {
            OneWire(w, WireOf(e, m.peers.calendar), v, stamp, c, targets, m.peers.calendar);
          }
        }
      }
    }
  }

  lemma MadeSays(v: P.Verified, stamp: Stamp, c: Consequence, targets: seq<V.Target>, e: Event)
    requires v.delivery.id != ZERO && IsToken(DeliveryText(v.delivery.id), HANDLE_MAX, false)
    requires e == EventOf(v, stamp, c, targets, DeliveryText(v.delivery.id), v.delivery.spec.artifacts)
    ensures Says(e, v, stamp, c, targets)
  {
    DigestBack(v.delivery.id);
  }

  lemma InputsIff(v: P.Verified, m: Machine)
    requires P.Normal(v.delivery.spec) || v.delivery.id == ZERO
    ensures Inputs(v, m).Ok? <==> Verified(v, m)
  {
    hide P.Complete, Evidence, P.Normal;
    if v.delivery.id != ZERO {
      NormalAscends(v.delivery.spec);
      CompleteIff(v.delivery.spec.artifacts, v.artifacts);
    }
  }

  lemma NormalAscends(s: P.Spec)
    requires P.Normal(s)
    ensures P.StrictlyBy(s.artifacts, P.DigestLess)
  {
    hide P.CheckShape, P.CheckTimes, P.BadArtifacts, P.BadCausation, P.StrictlyBy;
  }

  /**
   A delivery is verified exactly when it is sealed under its own envelope,
   has both Principals, and every artifact it names, and no other, has its
   evidence; a completed reply names one.
   */
  lemma VerifiedIff(d: P.Delivery, source: Handle, target: Handle, artifacts: seq<P.VerifiedArtifact>, m: Machine)
    requires P.Normal(d.spec) || d.id == ZERO
    ensures P.Verify(d, source, target, artifacts, m.peers).Ok? <==>
              && Verified(P.Verified(d, source, target, artifacts), m)
              && (d.spec.inReplyTo != ZERO && d.spec.consequence.ResolveCompleted? ==> d.spec.artifacts != [])
  {
    hide P.Complete, Evidence, P.Normal;
    if d.id != ZERO {
      NormalAscends(d.spec);
      CompleteIff(d.spec.artifacts, artifacts);
      if P.Complete(d.spec.artifacts, artifacts).Ok? {
        P.CompleteIs(d.spec.artifacts, artifacts);
      }
    }
  }
}
