/**
 One delivery from a peer (internal/agency, peer_delivery.go,
 peer_delivery_parse.go, verified_peer_delivery.go): built for an enrolled
 route, printed without it, and parsed back only under a route that gives the
 same identity. Times are nanoseconds of the Unix epoch.
 */
module PeerDelivery {
  import opened Common
  import opened Orders
  import opened AgencyValues

  const MAX_BYTES: nat := 32 * 1024
  const MAX_DEPTH: nat := 32
  const MAX_TTL: int := 24 * 3600 * 1_000_000_000
  const MAX_SUCCESSORS: nat := 16
  const MAX_ARTIFACTS: nat := 8
  const MAX_CAUSATION: nat := 16
  const MAX_ARTIFACT_BYTES: int := 4 * 1024 * 1024
  const VERSION: int := 3

  const ID_DOMAIN: string := "mnemon.peer-delivery-id.v1"
  const ENVELOPE_DOMAIN: string := "mnemon.peer-delivery-envelope.v1"

  // ---- payloads and times ----

  const PAYLOAD_MAX: nat := 4096

  /** The bytes of a character in UTF-8. */
  function CharBytes(c: char): nat {
    if c < '\U{80}' then 1 else if c < '\U{800}' then 2 else if c < '\U{10000}' then 3 else 4
  }

  /** The bytes of a character in a JSON string as encoding/json writes it. */
  function CharJson(c: char): nat {
    if c == '"' || c == '\\' || c == '\n' || c == '\r' || c == '\t' || c == '\U{8}' || c == '\U{C}' then 2
    else if c < ' ' || c == '<' || c == '>' || c == '&' || c == '\U{2028}' || c == '\U{2029}' then 6
    else CharBytes(c)
  }

  function TextBytes(s: string): nat {
    if s == "" then 0 else TextBytes(s[..|s| - 1]) + CharBytes(s[|s| - 1])
  }

  function TextJson(s: string): nat {
    if s == "" then 0 else TextJson(s[..|s| - 1]) + CharJson(s[|s| - 1])
  }

  predicate PayloadOk(s: string) {
    '\0' !in s && TextBytes(s) <= PAYLOAD_MAX && TextJson(s) <= PAYLOAD_MAX
  }

  /** A SemanticPayload. */
  type Payload = s: string | PayloadOk(s) witness ""

  function NewPayload(s: string): Result<Payload> {
    if '\0' in s then Err(Invalid)
    else if TextBytes(s) > PAYLOAD_MAX || TextJson(s) > PAYLOAD_MAX then Err(Limit)
    else Ok(s)
  }

  type Time = int

  /** canonicalTime: a time that Unix nanoseconds hold. */
  predicate Canonical(t: Time) {
    -0x8000_0000_0000_0000 <= t <= 0x7FFF_FFFF_FFFF_FFFF
  }

  /** RFC 3339 with nanoseconds: what is formatted can be read. */
  datatype Calendar = Calendar(format: Time -> string, read: string -> Option<Time>)

  ghost predicate Reads(c: Calendar) {
    forall t :: Canonical(t) ==> c.read(c.format(t)) == Some(t)
  }

  /** parsePeerCanonicalTime and parseCanonicalEventTime. */
  function ParseTime(c: Calendar, s: string): Result<Time> {
    match c.read(s)
    case None => Err(Invalid)
    case Some(t) => if Canonical(t) && c.format(t) == s then Ok(t) else Err(Invalid)
  }

  // ---- sorted without repetition ----

  /** eventRefLess. */
  predicate RefLess(a: Ref, b: Ref) {
    if a.id != b.id then Less(a.id, b.id) else Less(DigestText(a.digest), DigestText(b.digest))
  }

  predicate DigestLess(a: Digest, b: Digest) {
    Less(DigestText(a), DigestText(b))
  }

  function InsertBy<T>(s: seq<T>, x: T, less: (T, T) -> bool): (r: seq<T>)
    ensures multiset(r) == multiset(s) + multiset{x}
  {
    if s == [] then [x]
    else
      assert s == s[..|s| - 1] + [s[|s| - 1]];
      if less(x, s[|s| - 1]) then InsertBy(s[..|s| - 1], x, less) + [s[|s| - 1]] else s + [x]
  }

  /** sort.Slice. */
  function SortBy<T>(s: seq<T>, less: (T, T) -> bool): (r: seq<T>)
    ensures multiset(r) == multiset(s) && |r| == |s|
  {
    if s == [] then []
    else
      assert s == s[..|s| - 1] + [s[|s| - 1]];
      var r := InsertBy(SortBy(s[..|s| - 1], less), s[|s| - 1], less);
      assert |multiset(r)| == |r|;
      r
  }

  ghost predicate StrictlyBy<T>(s: seq<T>, less: (T, T) -> bool) {
    forall i, j :: 0 <= i < j < |s| ==> less(s[i], s[j]) && !less(s[j], s[i])
  }

  /** What is strictly ascending stays as it is. */
  lemma {:induction false} SortFixes<T>(s: seq<T>, less: (T, T) -> bool)
    requires StrictlyBy(s, less)
    ensures SortBy(s, less) == s
  {
    if s != [] {
      SortFixes(s[..|s| - 1], less);
      assert s == s[..|s| - 1] + [s[|s| - 1]];
    }
  }

  /** A strict total order. */
  ghost predicate TotalOrder<T(!new)>(less: (T, T) -> bool) {
    && (forall a :: !less(a, a))
    && (forall a, b :: a == b || less(a, b) || less(b, a))
    && (forall a, b, c :: less(a, b) && less(b, c) ==> less(a, c))
  }

  ghost predicate SortedBy<T>(s: seq<T>, less: (T, T) -> bool) {
    forall i, j :: 0 <= i < j < |s| ==> !less(s[j], s[i])
  }

  lemma {:induction false} InsertSorts<T(!new)>(s: seq<T>, x: T, less: (T, T) -> bool)
    requires TotalOrder(less) && SortedBy(s, less)
    ensures SortedBy(InsertBy(s, x, less), less)
  {
    if s != [] {
      var n := |s| - 1;
      if less(x, s[n]) {
        var r := InsertBy(s[..n], x, less);
        InsertSorts(s[..n], x, less);
        forall i | 0 <= i < |r|
          ensures !less(s[n], r[i])
        {
          assert r[i] in multiset(s[..n]) + multiset{x};
        }
      } else {
        forall i | 0 <= i < |s|
          ensures !less(x, s[i])
        {
        }
      }
    }
  }

  lemma {:induction false} SortSorts<T(!new)>(s: seq<T>, less: (T, T) -> bool)
    requires TotalOrder(less)
    ensures SortedBy(SortBy(s, less), less)
  {
    if s != [] {
      SortSorts(s[..|s| - 1], less);
      InsertSorts(SortBy(s[..|s| - 1], less), s[|s| - 1], less);
    }
  }

  ghost predicate NoNeighbours<T>(s: seq<T>) {
    forall i :: 0 < i < |s| ==> s[i] != s[i - 1]
  }

  /** Sorted and with no two neighbours equal is strictly ascending. */
  lemma {:induction false} Strict<T(!new)>(s: seq<T>, less: (T, T) -> bool)
    requires TotalOrder(less) && SortedBy(s, less) && NoNeighbours(s)
    ensures StrictlyBy(s, less)
  {
    forall i, j | 0 <= i < j < |s|
      ensures less(s[i], s[j]) && !less(s[j], s[i])
    {
      Climbs(s, less, i, j);
    }
  }

  lemma {:induction false} Climbs<T(!new)>(s: seq<T>, less: (T, T) -> bool, i: nat, j: nat)
    requires TotalOrder(less) && SortedBy(s, less) && NoNeighbours(s) && i < j < |s|
    ensures less(s[i], s[j])
    decreases j - i
  {
    assert s[j] != s[j - 1];
    if j - 1 > i {
      Climbs(s, less, i, j - 1);
    }
  }

  lemma DigestOrder()
    ensures TotalOrder(DigestLess)
  {
    forall a: Digest, b: Digest, c: Digest
      ensures !DigestLess(a, a)
      ensures a == b || DigestLess(a, b) || DigestLess(b, a)
      ensures DigestLess(a, b) && DigestLess(b, c) ==> DigestLess(a, c)
    {
      Irreflexive(DigestText(a));
      Total(DigestText(a), DigestText(b));
      if DigestText(a) == DigestText(b) {
        TextsDiffer(SHA, a, b);
      }
      if DigestLess(a, b) && DigestLess(b, c) {
        Transitive(DigestText(a), DigestText(b), DigestText(c));
      }
    }
  }

  lemma RefOrder()
    ensures TotalOrder(RefLess)
  {
    hide Less, DigestText;
    forall a: Ref, b: Ref, c: Ref
      ensures !RefLess(a, a)
      ensures a == b || RefLess(a, b) || RefLess(b, a)
      ensures RefLess(a, b) && RefLess(b, c) ==> RefLess(a, c)
    {
      Irreflexive(DigestText(a.digest));
      RefTotal(a, b);
      if RefLess(a, b) && RefLess(b, c) {
        RefTransitive(a, b, c);
      }
    }
  }

  lemma RefTotal(a: Ref, b: Ref)
    ensures a == b || RefLess(a, b) || RefLess(b, a)
  {
    hide Less;
    Total(a.id, b.id);
    Total(DigestText(a.digest), DigestText(b.digest));
    if DigestText(a.digest) == DigestText(b.digest) {
      TextsDiffer(SHA, a.digest, b.digest);
    }
  }

  lemma RefTransitive(a: Ref, b: Ref, c: Ref)
    requires RefLess(a, b) && RefLess(b, c)
    ensures RefLess(a, c)
  {
    hide Less, DigestText;
    Irreflexive(a.id);
    if a.id == b.id && b.id == c.id {
      Transitive(DigestText(a.digest), DigestText(b.digest), DigestText(c.digest));
    } else if a.id != b.id && b.id != c.id {
      Transitive(a.id, b.id, c.id);
    }
  }

  // ---- the delivery ----

  datatype Spec = Spec(
    originEvent: EventRef, sequence: nat, acceptedAt: Time, source: Handle, consequence: Consequence, targetCount: nat,
    causation: seq<EventRef>, correlation: EventRef, inReplyTo: Digest, targetAlias: Handle, kind: Label,
    payload: Payload, artifacts: seq<Digest>, depth: nat, expiresAt: Time)

  /** A PeerDelivery: its spec, normalized, with its identity and its sealed form. */
  datatype Delivery = Delivery(id: Digest, spec: Spec, canonical: Bytes, envelope: Digest)

  datatype IdWire = IdWire(version: int, originEvent: RefWire, route: string, targetAlias: string)

  datatype DeliveryWire = DeliveryWire(
    version: int, id: string, event: RefWire, sequence: nat, acceptedAt: string, source: string, consequence: string,
    targetCount: nat, causation: seq<RefWire>, correlation: Option<RefWire>, targetAlias: string, kind: string,
    payload: string, artifacts: seq<string>, inReplyTo: string, depth: nat, expiresAt: string)

  /** The encoders, the calendar and the domain-separated digest. */
  datatype Machine = Machine(
    codec: Codec<DeliveryWire>, idCodec: Codec<IdWire>, calendar: Calendar, hash: (string, Bytes) -> Digest)

  ghost predicate Sound(m: Machine) {
    Faithful(m.codec) && Faithful(m.idCodec) && Reads(m.calendar)
  }

  /** validatePeerDeliveryRequiredShape. */
  function CheckShape(s: Spec): Option<Error> {
    if s.originEvent == NO_REF || s.sequence == 0 || s.source == "" || !AgentDeclarable(s.consequence)
       || s.targetCount == 0 || s.targetCount > MAX_SUCCESSORS || s.targetAlias == "" || s.kind == "" || s.depth == 0
    then Some(Invalid)
    else
      var sole := Terminal(s.consequence) && s.targetCount == 1;
      if sole && (s.correlation == NO_REF || s.inReplyTo == ZERO) then Some(Invariant)
      else if !sole && s.inReplyTo != ZERO then Some(Invariant)
      else None
  }

  function CheckTimes(s: Spec): Option<Error> {
    if !Canonical(s.acceptedAt) || !Canonical(s.expiresAt) then Some(Invalid)
    else if s.expiresAt <= s.acceptedAt then Some(Invariant)
    else if s.expiresAt - s.acceptedAt > MAX_TTL then Some(Limit)
    else None
  }

  predicate BadCausation(origin: EventRef, s: seq<EventRef>) {
    exists i :: 0 <= i < |s| && (s[i] == NO_REF || s[i] == origin || (i > 0 && s[i] == s[i - 1]))
  }

  /** normalizePeerCausation. */
  function Causation(s: Spec): Result<seq<EventRef>> {
    if |s.causation| > MAX_CAUSATION then Err(Limit)
    else
      var sorted := SortBy(s.causation, EventLess);
      if BadCausation(s.originEvent, sorted) then Err(Invalid)
      else if s.correlation != NO_REF && s.correlation == s.originEvent then Err(Invalid)
      else Ok(sorted)
  }

  predicate EventLess(a: EventRef, b: EventRef) {
    RefLess(a, b)
  }

  lemma EventOrder()
    ensures TotalOrder(EventLess)
  {
    RefOrder();
  }

  predicate BadArtifacts(s: seq<Digest>) {
    exists i :: 0 <= i < |s| && (s[i] == ZERO || (i > 0 && s[i] == s[i - 1]))
  }

  /** normalizePeerArtifacts. */
  function Artifacts(values: seq<Digest>): Result<seq<Digest>> {
    if |values| > MAX_ARTIFACTS then Err(Limit)
    else
      var sorted := SortBy(values, DigestLess);
      if BadArtifacts(sorted) then Err(Invalid) else Ok(sorted)
  }

  /** The loop that looks for a zero, the origin or a repetition. */
  method FindBadCausation(origin: EventRef, s: seq<EventRef>) returns (bad: bool)
    ensures bad == BadCausation(origin, s)
  {
    var i := 0;
    while i < |s|
      invariant i <= |s|
      invariant forall j :: 0 <= j < i ==> !(s[j] == NO_REF || s[j] == origin || (j > 0 && s[j] == s[j - 1]))
    {
      if s[i] == NO_REF || s[i] == origin || (i > 0 && s[i] == s[i - 1]) {
        return true;
      }
      i := i + 1;
    }
    return false;
  }

  method NormalizeCausation(s: Spec) returns (r: Result<seq<EventRef>>)
    ensures r == Causation(s)
  {
    if |s.causation| > MAX_CAUSATION {
      return Err(Limit);
    }
    var sorted := SortBy(s.causation, EventLess);
    var bad := FindBadCausation(s.originEvent, sorted);
    if bad || (s.correlation != NO_REF && s.correlation == s.originEvent) {
      return Err(Invalid);
    }
    return Ok(sorted);
  }

  method NormalizeArtifacts(values: seq<Digest>) returns (r: Result<seq<Digest>>)
    ensures r == Artifacts(values)
  {
    if |values| > MAX_ARTIFACTS {
      return Err(Limit);
    }
    var s := SortBy(values, DigestLess);
    var i := 0;
    while i < |s|
      invariant i <= |s| && forall j :: 0 <= j < i ==> !(s[j] == ZERO || (j > 0 && s[j] == s[j - 1]))
    {
      if s[i] == ZERO || (i > 0 && s[i] == s[i - 1]) {
        return Err(Invalid);
      }
      i := i + 1;
    }
    return Ok(s);
  }

  /** deriveDeliveryID. */
  function DeriveID(route: Handle, s: Spec, m: Machine): Digest {
    m.hash(ID_DOMAIN, m.idCodec.encode(IdWire(1, PrintRef(s.originEvent), route, s.targetAlias)))
  }

  function PrintRefs(s: seq<EventRef>): (r: seq<RefWire>)
    ensures |r| == |s| && forall i :: 0 <= i < |r| ==> r[i] == PrintRef(s[i])
  {
    if s == [] then [] else PrintRefs(s[..|s| - 1]) + [PrintRef(s[|s| - 1])]
  }

  function PrintDigests(s: seq<Digest>): (r: seq<string>)
    ensures |r| == |s| && forall i :: 0 <= i < |r| ==> r[i] == DigestText(s[i])
  {
    if s == [] then [] else PrintDigests(s[..|s| - 1]) + [DigestText(s[|s| - 1])]
  }

  function PrintOptional(r: EventRef): Option<RefWire> {
    if r == NO_REF then None else Some(PrintRef(r))
  }

  function PrintReply(d: Digest): string {
    if d == ZERO then "" else DeliveryText(d)
  }

  /** wire. */
  function WireOf(id: Digest, s: Spec, c: Calendar): DeliveryWire {
    DeliveryWire(VERSION, DeliveryText(id), PrintRef(s.originEvent), s.sequence, c.format(s.acceptedAt), s.source,
                 Name(s.consequence), s.targetCount, PrintRefs(s.causation), PrintOptional(s.correlation),
                 s.targetAlias, s.kind, s.payload, PrintDigests(s.artifacts), PrintReply(s.inReplyTo), s.depth,
                 c.format(s.expiresAt))
  }

  /** NewPeerDelivery. */
  function Build(route: Handle, s: Spec, m: Machine): Result<Delivery> {
    if route == "" then Err(Invalid)
    else if CheckShape(s).Some? then Err(CheckShape(s).value)
    else if s.depth > MAX_DEPTH then Err(Limit)
    else if CheckTimes(s).Some? then Err(CheckTimes(s).value)
    else
      var causation := Causation(s);
      if causation.Err? then Err(causation.error)
      else
        var artifacts := Artifacts(s.artifacts);
        if artifacts.Err? then Err(artifacts.error)
        else Seal(route, s.(causation := causation.value, artifacts := artifacts.value), m)
  }

  function Seal(route: Handle, s: Spec, m: Machine): Result<Delivery> {
    var id := DeriveID(route, s, m);
    var canonical := m.codec.encode(WireOf(id, s, m.calendar));
    if |canonical| > MAX_BYTES then Err(Limit)
    else Ok(Delivery(id, s, canonical, m.hash(ENVELOPE_DOMAIN, canonical)))
  }

  // ---- the parser ----

  function ParseOptional(w: Option<RefWire>): Result<EventRef> {
    match w
    case None => Ok(NO_REF)
    case Some(x) => ParseRef(x)
  }

  function ParseReply(s: string): Result<Digest> {
    if s == "" then Ok(ZERO) else ParseDeliveryID(s)
  }

  /** peerDeliveryFromWire, up to the constructor. */
  function SpecFromWire(w: DeliveryWire, c: Calendar): Result<Spec> {
    var event := ParseRef(w.event);
    if event.Err? then Err(event.error) else
    var acceptedAt := ParseTime(c, w.acceptedAt);
    if acceptedAt.Err? then Err(acceptedAt.error) else
    var source := NewHandle(w.source);
    if source.Err? then Err(source.error) else
    var consequence := ParseConsequence(w.consequence);
    if consequence.Err? then Err(consequence.error) else
    var causation := ParseAll(w.causation, ParseRef);
    if causation.Err? then Err(causation.error) else
    var correlation := ParseOptional(w.correlation);
    if correlation.Err? then Err(correlation.error) else
    var inReplyTo := ParseReply(w.inReplyTo);
    if inReplyTo.Err? then Err(inReplyTo.error) else
    var target := NewHandle(w.targetAlias);
    if target.Err? then Err(target.error) else
    var kind := NewLabel(w.kind);
    if kind.Err? then Err(kind.error) else
    var payload := NewPayload(w.payload);
    if payload.Err? then Err(payload.error) else
    var artifacts := ParseAll(w.artifacts, ParseDigest);
    if artifacts.Err? then Err(artifacts.error) else
    var expiresAt := ParseTime(c, w.expiresAt);
    if expiresAt.Err? then Err(expiresAt.error) else
    Ok(Spec(event.value, w.sequence, acceptedAt.value, source.value, consequence.value, w.targetCount, causation.value,
            correlation.value, inReplyTo.value, target.value, kind.value, payload.value, artifacts.value, w.depth,
            expiresAt.value))
  }

  function FromWire(w: DeliveryWire, route: Handle, m: Machine): Result<Delivery> {
    if w.version != VERSION then Err(Invalid)
    else
      var id := ParseDeliveryID(w.id);
      if id.Err? then Err(id.error)
      else
        var s := SpecFromWire(w, m.calendar);
        if s.Err? then Err(s.error)
        else
          var r := Build(route, s.value, m);
          if r.Err? then r
          else if r.value.id != id.value then Err(Invariant)
          else r
  }

  /** ParsePeerDeliveryCanonicalJSON. */
  function Parse(data: Bytes, route: Handle, m: Machine): Result<Delivery> {
    if route == "" then Err(Invalid)
    else
      var w := DecodeObject(m.codec, data, MAX_BYTES);
      if w.Err? then Err(w.error)
      else
        var r := FromWire(w.value, route, m);
        if r.Err? then r else if r.value.canonical == data then r else Err(Invariant)
  }

  // ---- what a delivery that was built is ----

  /** The normalized spec of a delivery: checked, and its lists strictly ascending. */
  ghost predicate Normal(s: Spec) {
    && CheckShape(s).None? && s.depth <= MAX_DEPTH && CheckTimes(s).None?
    && |s.causation| <= MAX_CAUSATION && !BadCausation(s.originEvent, s.causation) && StrictlyBy(s.causation, EventLess)
    && (s.correlation == NO_REF || s.correlation != s.originEvent)
    && |s.artifacts| <= MAX_ARTIFACTS && !BadArtifacts(s.artifacts) && StrictlyBy(s.artifacts, DigestLess)
  }

  lemma CausationNormal(s: Spec)
    requires Causation(s).Ok?
    ensures StrictlyBy(Causation(s).value, EventLess) && |Causation(s).value| == |s.causation|
  {
    hide RefLess;
    var r := SortBy(s.causation, EventLess);
    EventOrder();
    SortSorts(s.causation, EventLess);
    Strict(r, EventLess);
  }

  lemma ArtifactsNormal(values: seq<Digest>)
    requires Artifacts(values).Ok?
    ensures StrictlyBy(Artifacts(values).value, DigestLess) && |Artifacts(values).value| == |values|
  {
    hide DigestLess;
    var r := SortBy(values, DigestLess);
    DigestOrder();
    SortSorts(values, DigestLess);
    Strict(r, DigestLess);
  }

  /** The checks do not look at the lists. */
  lemma ShapeKept(s: Spec)
    ensures forall c, a :: CheckShape(s.(causation := c, artifacts := a)) == CheckShape(s)
                           && CheckTimes(s.(causation := c, artifacts := a)) == CheckTimes(s)
  {
  }

  lemma BuiltIsNormal(route: Handle, s: Spec, m: Machine)
    requires Build(route, s, m).Ok?
    ensures var d := Build(route, s, m).value;
            && Normal(d.spec) && route != "" && d.id == DeriveID(route, d.spec, m)
            && d.canonical == m.codec.encode(WireOf(d.id, d.spec, m.calendar)) && |d.canonical| <= MAX_BYTES
            && d.envelope == m.hash(ENVELOPE_DOMAIN, d.canonical)
            && multiset(d.spec.causation) == multiset(s.causation)
            && multiset(d.spec.artifacts) == multiset(s.artifacts)
            && d.spec == s.(causation := d.spec.causation, artifacts := d.spec.artifacts)
  {
    hide EventLess, DigestLess, WireOf, DeriveID, BadCausation, BadArtifacts, SortBy, StrictlyBy, CheckShape;
    hide CheckTimes;
    ShapeKept(s);
    CausationNormal(s);
    ArtifactsNormal(s.artifacts);
  }

  /** A normalized spec builds into itself. */
  lemma NormalBuilds(route: Handle, s: Spec, m: Machine)
    requires Normal(s) && route != ""
    ensures Build(route, s, m) == Seal(route, s, m)
  {
    hide EventLess, DigestLess, WireOf, DeriveID, BadCausation, BadArtifacts, SortBy, StrictlyBy, CheckShape;
    hide CheckTimes;
    SortFixes(s.causation, EventLess);
    SortFixes(s.artifacts, DigestLess);
    assert s == s.(causation := s.causation, artifacts := s.artifacts);
  }

  // ---- the round trip ----

  lemma TimeBack(c: Calendar, t: Time)
    requires Reads(c) && Canonical(t)
    ensures ParseTime(c, c.format(t)) == Ok(t)
  {
  }

  lemma RefsBack(s: seq<EventRef>)
    requires forall i :: 0 <= i < |s| ==> s[i] != NO_REF
    ensures ParseAll(PrintRefs(s), ParseRef) == Ok(s)
  {
    hide ParseRef, PrintRef;
    forall i | 0 <= i < |s|
      ensures ParseRef(PrintRefs(s)[i]) == Ok(s[i])
    {
      RefBack(s[i]);
    }
    ParseAllBack(PrintRefs(s), ParseRef, s);
  }

  lemma DigestsBack(s: seq<Digest>)
    requires forall i :: 0 <= i < |s| ==> s[i] != ZERO
    ensures ParseAll(PrintDigests(s), ParseDigest) == Ok(s)
  {
    hide ParseDigest, DigestText;
    forall i | 0 <= i < |s|
      ensures ParseDigest(PrintDigests(s)[i]) == Ok(s[i])
    {
      DigestBack(s[i]);
    }
    ParseAllBack(PrintDigests(s), ParseDigest, s);
  }

  lemma OptionalBack(r: EventRef)
    ensures ParseOptional(PrintOptional(r)) == Ok(r)
  {
    if r != NO_REF {
      RefBack(r);
    }
  }

  lemma ReplyBack(d: Digest)
    ensures ParseReply(PrintReply(d)) == Ok(d)
  {
    if d != ZERO {
      DigestBack(d);
      assert DeliveryText(d)[0] == 'd';
    }
  }

  lemma SpecBack(id: Digest, s: Spec, c: Calendar)
    requires Normal(s) && Reads(c)
    ensures SpecFromWire(WireOf(id, s, c), c) == Ok(s)
  {
    hide EventLess, DigestLess, ParseRef, ParseDigest, ParseConsequence, ParseAll, ParseOptional, ParseReply;
    hide ParseTime, Reads, StrictlyBy;
    RefBack(s.originEvent);
    TimeBack(c, s.acceptedAt);
    TimeBack(c, s.expiresAt);
    ConsequenceBack(s.consequence);
    NoZeros(s);
    RefsBack(s.causation);
    DigestsBack(s.artifacts);
    OptionalBack(s.correlation);
    ReplyBack(s.inReplyTo);
  }

  lemma NoZeros(s: Spec)
    requires Normal(s)
    ensures forall i :: 0 <= i < |s.causation| ==> s.causation[i] != NO_REF
    ensures forall i :: 0 <= i < |s.artifacts| ==> s.artifacts[i] != ZERO
  {
    hide EventLess, DigestLess, StrictlyBy, CheckShape, CheckTimes;
  }

  /** What the parser makes, under any route, of a delivery built for one. */
  lemma ParseUnder(route: Handle, s: Spec, m: Machine, other: Handle)
    requires Sound(m) && Build(route, s, m).Ok? && other != ""
    ensures var d := Build(route, s, m).value;
            Parse(d.canonical, other, m) ==
              if d.id == ZERO then Err(Invalid)
              else if DeriveID(other, d.spec, m) == d.id then Ok(d)
              else if Seal(other, d.spec, m).Err? then Seal(other, d.spec, m)
              else Err(Invariant)
  {
    hide Build, WireOf, SpecFromWire, DeriveID, Normal;
    var d := Build(route, s, m).value;
    BuiltIsNormal(route, s, m);
    var w := WireOf(d.id, d.spec, m.calendar);
    DecodeBack(m.codec, w, MAX_BYTES);
    SpecBack(d.id, d.spec, m.calendar);
    NormalBuilds(other, d.spec, m);
    WireHead(d.id, d.spec, m.calendar);
    if d.id != ZERO {
      DigestBack(d.id);
    } else {
      ZeroRefused();
    }
  }

  lemma WireHead(id: Digest, s: Spec, c: Calendar)
    ensures WireOf(id, s, c).version == VERSION && WireOf(id, s, c).id == DeliveryText(id)
  {
  }

  lemma ZeroRefused()
    ensures ParseDeliveryID(DeliveryText(ZERO)) == Err(Invalid)
  {
    assert (DELIVERY + ZERO)[|DELIVERY|..] == ZERO;
  }

  /** A delivery parses back to itself under its own route, unless the digest that is its identity is zero. */
  lemma RoundTrip(route: Handle, s: Spec, m: Machine)
    requires Sound(m) && Build(route, s, m).Ok?
    ensures var d := Build(route, s, m).value;
            Parse(d.canonical, route, m) == Ok(d) <==> d.id != ZERO
  {
    hide Build, Parse;
    BuiltIsNormal(route, s, m);
    ParseUnder(route, s, m, route);
  }

  /**
   Under another route a delivery is refused, unless the digest of two
   different identities, with different routes in them, is the same.
   */
  lemma OtherRouteRefused(route: Handle, s: Spec, m: Machine, other: Handle)
    requires Sound(m) && Build(route, s, m).Ok? && other != route
    ensures var d := Build(route, s, m).value;
            var mine := m.idCodec.encode(IdWire(1, PrintRef(d.spec.originEvent), route, d.spec.targetAlias));
            var theirs := m.idCodec.encode(IdWire(1, PrintRef(d.spec.originEvent), other, d.spec.targetAlias));
            && mine != theirs
            && (Parse(d.canonical, other, m).Ok? <==>
                other != "" && d.id != ZERO && m.hash(ID_DOMAIN, mine) == m.hash(ID_DOMAIN, theirs))
  {
    hide Build, Parse;
    BuiltIsNormal(route, s, m);
    var d := Build(route, s, m).value;
    var mine := IdWire(1, PrintRef(d.spec.originEvent), route, d.spec.targetAlias);
    var theirs := mine.(route := other);
    assert m.idCodec.decode(m.idCodec.encode(mine)) == Some(mine);
    assert m.idCodec.decode(m.idCodec.encode(theirs)) == Some(theirs);
    if other != "" {
      ParseUnder(route, s, m, other);
    } else {
      NoRoute(d.canonical, m);
    }
  }

  lemma NoRoute(data: Bytes, m: Machine)
    ensures Parse(data, "", m) == Err(Invalid)
  {
  }

  /** What the parser accepts is a delivery built for the route it was given, and prints as the bytes it was given. */
  lemma ParsedIsBuilt(data: Bytes, route: Handle, m: Machine)
    requires Parse(data, route, m).Ok?
    ensures var d := Parse(data, route, m).value;
            && d.canonical == data
            && exists s :: Build(route, s, m) == Ok(d)
  {
    hide Build, SpecFromWire;
    var w := DecodeObject(m.codec, data, MAX_BYTES).value;
    assert Build(route, SpecFromWire(w, m.calendar).value, m) == Parse(data, route, m);
  }

  // ---- the verified delivery ----

  datatype VerifiedArtifact = VerifiedArtifact(digest: Digest, size: int, verifiedAt: Option<Time>)

  datatype Verified = Verified(delivery: Delivery, source: Handle, target: Handle, artifacts: seq<VerifiedArtifact>)

  predicate ArtifactLess(a: VerifiedArtifact, b: VerifiedArtifact) {
    DigestLess(a.digest, b.digest)
  }

  /** requireCompletePeerArtifacts's loop, from its i-th turn on. */
  function CheckComplete(required: seq<Digest>, s: seq<VerifiedArtifact>, i: nat): Option<Error>
    requires |s| == |required| && i <= |s|
    decreases |s| - i
  {
    if i == |s| then None
    else if s[i].digest == ZERO || s[i].size < 0 || s[i].size > MAX_ARTIFACT_BYTES || s[i].verifiedAt.None?
        then Some(Invalid)
    else if i > 0 && s[i].digest == s[i - 1].digest then Some(Invalid)
    else if s[i].digest != required[i] then Some(Invariant)
    else CheckComplete(required, s, i + 1)
  }

  function Complete(required: seq<Digest>, artifacts: seq<VerifiedArtifact>): Result<seq<VerifiedArtifact>> {
    if |artifacts| != |required| then Err(Invariant)
    else
      var sorted := SortBy(artifacts, ArtifactLess);
      if CheckComplete(required, sorted, 0).Some? then Err(CheckComplete(required, sorted, 0).value) else Ok(sorted)
  }

  method RequireComplete(required: seq<Digest>, artifacts: seq<VerifiedArtifact>)
    returns (r: Result<seq<VerifiedArtifact>>)
    ensures r == Complete(required, artifacts)
  {
    if |artifacts| != |required| {
      return Err(Invariant);
    }
    var s := SortBy(artifacts, ArtifactLess);
    var i := 0;
    while i < |s|
      invariant i <= |s| && CheckComplete(required, s, i) == CheckComplete(required, s, 0)
    {
      if s[i].digest == ZERO || s[i].size < 0 || s[i].size > MAX_ARTIFACT_BYTES || s[i].verifiedAt.None? {
        return Err(Invalid);
      }
      if i > 0 && s[i].digest == s[i - 1].digest {
        return Err(Invalid);
      }
      if s[i].digest != required[i] {
        return Err(Invariant);
      }
      i := i + 1;
    }
    return Ok(s);
  }

  /** The artifacts that pass are exactly the required ones, in their order, each with its evidence. */
  lemma CompleteIs(required: seq<Digest>, artifacts: seq<VerifiedArtifact>)
    requires Complete(required, artifacts).Ok?
    ensures var r := Complete(required, artifacts).value;
            && |r| == |required| && multiset(r) == multiset(artifacts)
            && forall i :: 0 <= i < |r| ==> r[i].digest == required[i] && 0 <= r[i].size <= MAX_ARTIFACT_BYTES
  {
    CheckedAll(required, SortBy(artifacts, ArtifactLess), 0);
  }

  lemma {:induction false} CheckedAll(required: seq<Digest>, s: seq<VerifiedArtifact>, i: nat)
    requires |s| == |required| && i <= |s| && CheckComplete(required, s, i).None?
    ensures forall j :: i <= j < |s| ==> s[j].digest == required[j] && 0 <= s[j].size <= MAX_ARTIFACT_BYTES
    decreases |s| - i
  {
    if i < |s| {
      CheckedAll(required, s, i + 1);
    }
  }

  predicate Sealed(d: Delivery, m: Machine) {
    && d.id != ZERO && d.envelope != ZERO && d.canonical != []
    && d.canonical == m.codec.encode(WireOf(d.id, d.spec, m.calendar))
    && d.envelope == m.hash(ENVELOPE_DOMAIN, d.canonical)
  }

  /** NewVerifiedPeerDelivery. */
  function Verify(d: Delivery, source: Handle, target: Handle, artifacts: seq<VerifiedArtifact>,
                  m: Machine): Result<Verified> {
    if !Sealed(d, m) || source == "" || target == "" then Err(Invalid)
    else
      var verified := Complete(d.spec.artifacts, artifacts);
      if verified.Err? then Err(verified.error)
      else if d.spec.inReplyTo != ZERO && d.spec.consequence.ResolveCompleted? && |verified.value| == 0
          then Err(Invariant)
      else Ok(Verified(d, source, target, verified.value))
  }

  /** What was verified once passes the check of its artifacts again, unchanged. */
  lemma VerifiedAgain(d: Delivery, source: Handle, target: Handle, artifacts: seq<VerifiedArtifact>, m: Machine)
    requires Normal(d.spec) && Verify(d, source, target, artifacts, m).Ok?
    ensures var v := Verify(d, source, target, artifacts, m).value;
            && v == Verified(d, source, target, v.artifacts) && multiset(v.artifacts) == multiset(artifacts)
            && Complete(d.spec.artifacts, v.artifacts) == Ok(v.artifacts)
  {
    hide Sealed, SortBy, CheckComplete, StrictlyBy;
    var required, r := d.spec.artifacts, Complete(d.spec.artifacts, artifacts).value;
    CompleteIs(required, artifacts);
    AscendingByDigest(d.spec, r);
    SortFixes(r, ArtifactLess);
  }

  lemma AscendingByDigest(s: Spec, r: seq<VerifiedArtifact>)
    requires Normal(s) && |r| == |s.artifacts| && forall i :: 0 <= i < |r| ==> r[i].digest == s.artifacts[i]
    ensures StrictlyBy(r, ArtifactLess)
  {
    hide CheckShape, CheckTimes, BadArtifacts, BadCausation, DigestLess;
  }
}
