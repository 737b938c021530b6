/**
 The checked values of Agency (internal/agency): tokens, digests, Event
 references and consequences, each with its text and its parser. A value's Go
 type has unexported fields, so that a value is its zero value or what its
 constructor checked: here a subset type says so. Bytes, JSON and hashes are
 what a Codec and a digest function, given as values, make of them.
 */
module AgencyValues {
  import opened Common
  import opened Orders

  datatype Error = Invalid | Limit | Invariant

  datatype Result<+T> = Ok(value: T) | Err(error: Error)

  type Bytes = seq<int>

  // ---- tokens ----

  predicate IsLetter(c: char, lower: bool) {
    'a' <= c <= 'z' || (!lower && 'A' <= c <= 'Z')
  }

  predicate IsDigit(c: char) {
    '0' <= c <= '9'
  }

  predicate TokenChar(c: char, first: bool, lower: bool) {
    || IsLetter(c, lower) || IsDigit(c)
    || (!first && (c == '.' || c == '_' || c == '-' || c == ':' || (!lower && c == '/')))
  }

  predicate IsToken(s: string, max: nat, lower: bool) {
    && 0 < |s| <= max
    && (forall i :: 0 <= i < |s| ==> TokenChar(s[i], i == 0, lower))
    && (IsLetter(s[|s| - 1], lower) || IsDigit(s[|s| - 1]))
  }

  /** validateToken. */
  method ValidateToken(s: string, max: nat, lower: bool) returns (e: Option<Error>)
    ensures e.None? <==> IsToken(s, max, lower)
    ensures s != "" && |s| > max ==> e == Some(Limit)
    ensures e.Some? && !(s != "" && |s| > max) ==> e == Some(Invalid)
  {
    if s == "" {
      return Some(Invalid);
    }
    if |s| > max {
      return Some(Limit);
    }
    var i := 0;
    while i < |s|
      invariant i <= |s| && forall j :: 0 <= j < i ==> TokenChar(s[j], j == 0, lower)
    {
      if !TokenChar(s[i], i == 0, lower) {
        return Some(Invalid);
      }
      i := i + 1;
    }
    if !IsLetter(s[|s| - 1], lower) && !IsDigit(s[|s| - 1]) {
      return Some(Invalid);
    }
    return None;
  }

  const HANDLE_MAX: nat := 192
  const LABEL_MAX: nat := 96
  const KEY_MAX: nat := 160

  /** An OpaqueHandle or an identifier, "" for none. */
  type Handle = s: string | s == "" || IsToken(s, HANDLE_MAX, false) witness ""

  type Label = s: string | s == "" || IsToken(s, LABEL_MAX, true) witness ""

  type RefKey = s: string | s == "" || IsToken(s, KEY_MAX, true) witness ""

  function TokenError(s: string, max: nat): Error {
    if s != "" && |s| > max then Limit else Invalid
  }

  /** NewOpaqueHandle and the constructors of identifiers. */
  function NewHandle(s: string): Result<Handle> {
    if IsToken(s, HANDLE_MAX, false) then Ok(s) else Err(TokenError(s, HANDLE_MAX))
  }

  function NewLabel(s: string): Result<Label> {
    if IsToken(s, LABEL_MAX, true) then Ok(s) else Err(TokenError(s, LABEL_MAX))
  }

  function NewRefKey(s: string): Result<RefKey> {
    if IsToken(s, KEY_MAX, true) then Ok(s) else Err(TokenError(s, KEY_MAX))
  }

  // ---- digests ----

  predicate IsHex(s: string) {
    |s| == 64 && forall c :: c in s ==> '0' <= c <= '9' || 'a' <= c <= 'f'
  }

  function Zeros(n: nat): (r: string)
    ensures |r| == n && forall c :: c in r ==> c == '0'
  {
    if n == 0 then "" else Zeros(n - 1) + "0"
  }

  /** The zero digest's digits. */
  const ZERO: string := Zeros(64)

  /** A digest, as its hexadecimal digits. */
  type Digest = s: string | IsHex(s) witness Zeros(64)

  const SHA: string := "sha256:"
  const DELIVERY: string := "delivery:"

  function DigestText(d: Digest): string {
    SHA + d
  }

  function DeliveryText(d: Digest): string {
    DELIVERY + d
  }

  /** What follows a prefix, if it is a digest and not zero. */
  function ParseHex(prefix: string, s: string): Result<Digest> {
    if |prefix| <= |s| && s[..|prefix|] == prefix && IsHex(s[|prefix|..]) && s[|prefix|..] != ZERO
    then Ok(s[|prefix|..]) else Err(Invalid)
  }

  function ParseDigest(s: string): Result<Digest> {
    ParseHex(SHA, s)
  }

  function ParseDeliveryID(s: string): Result<Digest> {
    ParseHex(DELIVERY, s)
  }

  lemma HexBack(prefix: string, d: Digest)
    requires d != ZERO
    ensures ParseHex(prefix, prefix + d) == Ok(d)
  {
    var s := prefix + d;
    assert s[..|prefix|] == prefix && s[|prefix|..] == d;
  }

  lemma DigestBack(d: Digest)
    requires d != ZERO
    ensures ParseDigest(DigestText(d)) == Ok(d) && ParseDeliveryID(DeliveryText(d)) == Ok(d)
  {
    HexBack(SHA, d);
    HexBack(DELIVERY, d);
  }

  lemma TextsDiffer(prefix: string, d: string, e: string)
    requires prefix + d == prefix + e
    ensures d == e
  {
    assert (prefix + d)[|prefix|..] == d && (prefix + e)[|prefix|..] == e;
  }

  // ---- Event references ----

  datatype Ref = Ref(id: Handle, digest: Digest)

  const NO_REF: Ref := Ref("", ZERO)

  /** An EventRef: both parts, or neither. */
  type EventRef = r: Ref | r == NO_REF || (r.id != "" && r.digest != ZERO) witness Ref("", Zeros(64))

  datatype RefWire = RefWire(id: string, digest: string)

  function PrintRef(r: Ref): RefWire {
    RefWire(r.id, DigestText(r.digest))
  }

  /** parseEventRef and parsePeerEventRef. */
  function ParseRef(w: RefWire): Result<EventRef> {
    match NewHandle(w.id)
    case Err(e) => Err(e)
    case Ok(id) =>
      match ParseDigest(w.digest)
      case Err(e) => Err(e)
      case Ok(digest) => Ok(Ref(id, digest))
  }

  lemma RefBack(r: EventRef)
    requires r != NO_REF
    ensures ParseRef(PrintRef(r)) == Ok(r)
  {
    DigestBack(r.digest);
  }

  // ---- consequences ----

  datatype Consequence =
    | NoConsequence
    | CreateHandlings | AdvanceHandling | ResolveCompleted | ResolveDeclined | ResolveUnresolved
    | PublishReference | SupersedeReference | RetractReference
    | ObserveCompleted | ObserveDeclined | ObserveUnresolved

  function Name(c: Consequence): string {
    match c
    case NoConsequence => ""
    case CreateHandlings => "handling.create"
    case AdvanceHandling => "handling.advance"
    case ResolveCompleted => "handling.resolve.completed"
    case ResolveDeclined => "handling.resolve.declined"
    case ResolveUnresolved => "handling.resolve.unresolved"
    case PublishReference => "reference.publish"
    case SupersedeReference => "reference.supersede"
    case RetractReference => "reference.retract"
    case ObserveCompleted => "observation.completed"
    case ObserveDeclined => "observation.declined"
    case ObserveUnresolved => "observation.unresolved"
  }

  function ParseConsequence(s: string): Result<Consequence> {
    if s == "handling.create" then Ok(CreateHandlings)
    else if s == "handling.advance" then Ok(AdvanceHandling)
    else if s == "handling.resolve.completed" then Ok(ResolveCompleted)
    else if s == "handling.resolve.declined" then Ok(ResolveDeclined)
    else if s == "handling.resolve.unresolved" then Ok(ResolveUnresolved)
    else if s == "reference.publish" then Ok(PublishReference)
    else if s == "reference.supersede" then Ok(SupersedeReference)
    else if s == "reference.retract" then Ok(RetractReference)
    else if s == "observation.completed" then Ok(ObserveCompleted)
    else if s == "observation.declined" then Ok(ObserveDeclined)
    else if s == "observation.unresolved" then Ok(ObserveUnresolved)
    else Err(Invalid)
  }

  lemma ConsequenceBack(c: Consequence)
    requires !c.NoConsequence?
    ensures ParseConsequence(Name(c)) == Ok(c)
  {
    Letters();
    match c
    case CreateHandlings =>
    case AdvanceHandling =>
    case ResolveCompleted =>
    case ResolveDeclined =>
    case ResolveUnresolved =>
    case PublishReference =>
    case SupersedeReference =>
    case RetractReference =>
    case ObserveCompleted =>
    case ObserveDeclined =>
    case ObserveUnresolved =>
  }

  /** The names differ in a letter or in length. */
  lemma Letters()
    ensures "handling.create"[9] == 'c' && "handling.advance"[9] == 'a'
    ensures "handling.resolve.completed"[9] == 'r' && "handling.resolve.declined"[9] == 'r'
    ensures "handling.resolve.unresolved"[9] == 'r'
    ensures "handling.resolve.completed"[17] == 'c' && "handling.resolve.declined"[17] == 'd'
    ensures "handling.resolve.unresolved"[17] == 'u'
    ensures "reference.publish"[10] == 'p' && "reference.supersede"[10] == 's' && "reference.retract"[10] == 'r'
    ensures "observation.completed"[12] == 'c' && "observation.declined"[12] == 'd'
    ensures "observation.unresolved"[12] == 'u'
  {
  }

  predicate AgentDeclarable(c: Consequence) {
    !c.NoConsequence? && !Observation(c)
  }

  predicate Observation(c: Consequence) {
    c.ObserveCompleted? || c.ObserveDeclined? || c.ObserveUnresolved?
  }

  predicate Terminal(c: Consequence) {
    c.ResolveCompleted? || c.ResolveDeclined? || c.ResolveUnresolved?
  }

  // ---- bytes ----

  /** A canonical JSON encoder with its strict decoder. */
  datatype Codec<!W> = Codec(encode: W -> Bytes, decode: Bytes -> Option<W>)

  /** The decoder reads back what the encoder wrote, and nothing else. */
  ghost predicate Faithful<W(!new)>(c: Codec<W>) {
    && (forall w :: c.decode(c.encode(w)) == Some(w) && c.encode(w) != [])
    && (forall b, w :: c.decode(b) == Some(w) ==> c.encode(w) == b)
  }

  /** decodeCanonicalObject. */
  function DecodeObject<W(==)>(c: Codec<W>, data: Bytes, max: nat): Result<W> {
    if data == [] then Err(Invalid)
    else if |data| > max then Err(Limit)
    else
      match c.decode(data)
      case None => Err(Invalid)
      case Some(w) => if c.encode(w) == data then Ok(w) else Err(Invalid)
  }

  lemma DecodeBack<W(!new)>(c: Codec<W>, w: W, max: nat)
    requires Faithful(c) && |c.encode(w)| <= max
    ensures DecodeObject(c, c.encode(w), max) == Ok(w)
  {
  }

  // ---- lists ----

  /** Every value parsed, in order, or the first error. */
  function ParseAll<W, T>(ws: seq<W>, parse: W -> Result<T>): Result<seq<T>> {
    if ws == [] then Ok([])
    else
      match ParseAll(ws[..|ws| - 1], parse)
      case Err(e) => Err(e)
      case Ok(ts) =>
        match parse(ws[|ws| - 1])
        case Err(e) => Err(e)
        case Ok(t) => Ok(ts + [t])
  }

  method ParseEach<W, T>(ws: seq<W>, parse: W -> Result<T>) returns (r: Result<seq<T>>)
    ensures r == ParseAll(ws, parse)
  {
    var ts: seq<T> := [];
    var i := 0;
    while i < |ws|
      invariant i <= |ws| && ParseAll(ws[..i], parse) == Ok(ts)
    {
      assert ws[..i + 1][..i] == ws[..i];
      match parse(ws[i]) {
        case Err(e) =>
          FirstError(ws, parse, i + 1);
          return Err(e);
        case Ok(t) => ts := ts + [t];
      }
      i := i + 1;
    }
    assert ws[..i] == ws;
    return Ok(ts);
  }

  lemma {:induction false} FirstError<W, T>(ws: seq<W>, parse: W -> Result<T>, n: nat)
    requires n <= |ws| && ParseAll(ws[..n], parse).Err?
    ensures ParseAll(ws, parse) == ParseAll(ws[..n], parse)
  {
    if n == |ws| {
      assert ws[..n] == ws;
    } else {
      var k := |ws| - 1;
      assert ws[..k][..n] == ws[..n];
      FirstError(ws[..k], parse, n);
    }
  }

  /** Printing, then parsing, gives the values back. */
  lemma {:induction false} ParseAllBack<W, T>(ws: seq<W>, parse: W -> Result<T>, ts: seq<T>)
    requires |ws| == |ts| && forall i :: 0 <= i < |ts| ==> parse(ws[i]) == Ok(ts[i])
    ensures ParseAll(ws, parse) == Ok(ts)
  {
    if ws != [] {
      var n := |ws| - 1;
      ParseAllBack(ws[..n], parse, ts[..n]);
      assert ts == ts[..n] + [ts[n]];
    }
  }

  // ---- offers, loaded into a map by their keys and listed in key order ----

  /** Each offer checked, and no two under one key. */
  function Load<T>(offers: seq<T>, check: T -> Option<Error>, key: T -> string): Result<map<string, T>> {
    if offers == [] then Ok(map[])
    else
      match Load(offers[..|offers| - 1], check, key)
      case Err(e) => Err(e)
      case Ok(m) =>
        var o := offers[|offers| - 1];
        if check(o).Some? then Err(check(o).value)
        else if key(o) in m then Err(Invalid)
        else Ok(m[key(o) := o])
  }

  method LoadOffers<T>(offers: seq<T>, check: T -> Option<Error>, key: T -> string) returns (r: Result<map<string, T>>)
    ensures r == Load(offers, check, key)
  {
    var m: map<string, T> := map[];
    var i := 0;
    while i < |offers|
      invariant i <= |offers| && Load(offers[..i], check, key) == Ok(m)
    {
      assert offers[..i + 1][..i] == offers[..i];
      var o := offers[i];
      var e := check(o);
      if e.Some? {
        FirstRefused(offers, check, key, i + 1);
        return Err(e.value);
      }
      if key(o) in m {
        FirstRefused(offers, check, key, i + 1);
        return Err(Invalid);
      }
      m := m[key(o) := o];
      i := i + 1;
    }
    assert offers[..i] == offers;
    return Ok(m);
  }

  lemma {:induction false} FirstRefused<T>(offers: seq<T>, check: T -> Option<Error>, key: T -> string, n: nat)
    requires n <= |offers| && Load(offers[..n], check, key).Err?
    ensures Load(offers, check, key) == Load(offers[..n], check, key)
  {
    if n == |offers| {
      assert offers[..n] == offers;
    } else {
      var k := |offers| - 1;
      assert offers[..k][..n] == offers[..n];
      FirstRefused(offers[..k], check, key, n);
    }
  }

  ghost predicate Loadable<T>(offers: seq<T>, check: T -> Option<Error>, key: T -> string) {
    && (forall i :: 0 <= i < |offers| ==> check(offers[i]).None?)
    && (forall i, j :: 0 <= i < j < |offers| ==> key(offers[i]) != key(offers[j]))
  }

  ghost predicate Holds<T>(m: map<string, T>, offers: seq<T>, key: T -> string) {
    && (forall i :: 0 <= i < |offers| ==> key(offers[i]) in m && m[key(offers[i])] == offers[i])
    && (forall k :: k in m ==> key(m[k]) == k && m[k] in offers)
  }

  /** Loading succeeds exactly when every offer is good and no two share a key, and then holds them all. */
  lemma {:induction false} LoadIs<T>(offers: seq<T>, check: T -> Option<Error>, key: T -> string)
    ensures Load(offers, check, key).Ok? <==> Loadable(offers, check, key)
    ensures Load(offers, check, key).Ok? ==> Holds(Load(offers, check, key).value, offers, key)
  {
    hide Loadable, Holds;
    if offers == [] {
      NothingLoads(offers, check, key);
    } else {
      var n := |offers| - 1;
      LoadIs(offers[..n], check, key);
      assert offers == offers[..n] + [offers[n]];
      LoadableOne(offers[..n], check, key, offers[n]);
      if Load(offers[..n], check, key).Ok? {
        HoldsOneMore(Load(offers[..n], check, key).value, offers[..n], key, offers[n]);
      }
    }
  }

  lemma NothingLoads<T>(offers: seq<T>, check: T -> Option<Error>, key: T -> string)
    requires offers == []
    ensures Loadable(offers, check, key) && Holds(map[], offers, key)
  {
  }

  lemma LoadableOne<T>(offers: seq<T>, check: T -> Option<Error>, key: T -> string, o: T)
    ensures Loadable(offers + [o], check, key) <==>
            Loadable(offers, check, key) && check(o).None? && forall i :: 0 <= i < |offers| ==> key(offers[i]) != key(o)
  {
    var all := offers + [o];
    assert all[|offers|] == o;
    assert forall i :: 0 <= i < |offers| ==> all[i] == offers[i];
    if Loadable(all, check, key) {
      forall i | 0 <= i < |offers|
        ensures key(offers[i]) != key(o) && check(offers[i]).None?
      {
        assert key(all[i]) != key(all[|offers|]);
      }
      forall i, j | 0 <= i < j < |offers|
        ensures key(offers[i]) != key(offers[j])
      {
        assert key(all[i]) != key(all[j]);
      }
    }
  }

  lemma HoldsOneMore<T>(m: map<string, T>, offers: seq<T>, key: T -> string, o: T)
    requires Holds(m, offers, key)
    ensures key(o) in m <==> exists i :: 0 <= i < |offers| && key(offers[i]) == key(o)
    ensures key(o) !in m ==> Holds(m[key(o) := o], offers + [o], key)
  {
    if key(o) in m {
      var i :| 0 <= i < |offers| && offers[i] == m[key(o)];
      assert key(offers[i]) == key(o);
    }
  }

  lemma HoldsOne<T>(m: map<string, T>, m': map<string, T>, offers: seq<T>, offers': seq<T>, key: T -> string)
    requires Holds(m, offers, key) && Holds(m', offers', key) && forall o :: o in offers <==> o in offers'
    ensures m == m'
  {
    forall k
      ensures k in m <==> k in m'
      ensures k in m ==> m[k] == m'[k]
    {
      if k in m {
        var i :| 0 <= i < |offers'| && offers'[i] == m[k];
        assert key(offers'[i]) == k;
      }
      if k in m' {
        var i :| 0 <= i < |offers| && offers[i] == m'[k];
        assert key(offers[i]) == k;
      }
    }
    assert m.Keys == m'.Keys;
  }

  lemma SameMembers<T>(a: seq<T>, b: seq<T>)
    requires multiset(a) == multiset(b)
    ensures |a| == |b| && forall x :: x in a <==> x in b
  {
    assert |multiset(a)| == |a| && |multiset(b)| == |b|;
    forall x
      ensures x in a <==> x in b
    {
      assert x in multiset(a) <==> x in multiset(b);
    }
  }

  /** The offers in any order load into the same map. */
  lemma LoadPermuted<T>(a: seq<T>, b: seq<T>, check: T -> Option<Error>, key: T -> string)
    requires multiset(a) == multiset(b) && Load(a, check, key).Ok?
    ensures Load(b, check, key) == Load(a, check, key)
  {
    LoadIs(a, check, key);
    LoadIs(b, check, key);
    SameMembers(a, b);
    StillLoadable(a, b, check, key);
    HoldsOne(Load(a, check, key).value, Load(b, check, key).value, a, b, key);
  }

  lemma StillLoadable<T>(a: seq<T>, b: seq<T>, check: T -> Option<Error>, key: T -> string)
    requires multiset(a) == multiset(b) && Loadable(a, check, key)
    ensures Loadable(b, check, key)
  {
    SameMembers(a, b);
    forall i | 0 <= i < |b|
      ensures check(b[i]).None?
    {
      assert b[i] in a;
    }
    forall i, j | 0 <= i < j < |b|
      ensures key(b[i]) != key(b[j])
    {
      if key(b[i]) == key(b[j]) {
        assert b[i] in a && b[j] in a;
        var p :| 0 <= p < |a| && a[p] == b[i];
        var q :| 0 <= q < |a| && a[q] == b[j];
        assert p == q;
        Twice(b, i, j);
        NotTwice(a, check, key, p);
      }
    }
  }

  lemma Twice<T>(s: seq<T>, i: nat, j: nat)
    requires i < j < |s| && s[i] == s[j]
    ensures multiset(s)[s[i]] >= 2
  {
    assert s == s[..i] + [s[i]] + s[i + 1..j] + [s[j]] + s[j + 1..];
  }

  lemma NotTwice<T>(s: seq<T>, check: T -> Option<Error>, key: T -> string, p: nat)
    requires Loadable(s, check, key) && p < |s|
    ensures multiset(s)[s[p]] == 1
  {
    assert s == s[..p] + [s[p]] + s[p + 1..];
    assert s[p] !in s[..p] && s[p] !in s[p + 1..];
  }

  /** The keys of a map, ascending. */
  ghost function Sorted(names: set<string>): (r: seq<string>)
    ensures Ascending(r) && forall x :: x in r <==> x in names
    decreases names
  {
    if names == {} then []
    else
      var x :| x in names;
      Placed(Sorted(names - {x}), x)
  }

  function Placed(s: seq<string>, x: string): (r: seq<string>)
    requires Ascending(s) && x !in s
    ensures Ascending(r) && forall y :: y in r <==> y in s || y == x
  {
    InsertAscending(s, x);
    Insert(s, x)
  }

  /** What wire makes of a map: its entries printed, in the order of their keys. */
  ghost function Listed<V, W>(m: map<string, V>, show: (string, V) -> W): seq<W> {
    ListedBy(Sorted(m.Keys), m, show)
  }

  ghost function ListedBy<V, W>(ks: seq<string>, m: map<string, V>, show: (string, V) -> W): (r: seq<W>)
    requires forall k :: k in ks ==> k in m
    ensures |r| == |ks| && forall i :: 0 <= i < |r| ==> r[i] == show(ks[i], m[ks[i]])
  {
    if ks == [] then [] else ListedBy(ks[..|ks| - 1], m, show) + [show(ks[|ks| - 1], m[ks[|ks| - 1]])]
  }

  ghost function Values<V>(m: map<string, V>): seq<V> {
    ListedBy(Sorted(m.Keys), m, (k: string, v: V) => v)
  }

  /** Appended in the map's order and sorted. */
  method PrintSorted<V, W>(m: map<string, V>, show: (string, V) -> W) returns (r: seq<W>)
    ensures r == Listed(m, show)
  {
    var ks := SortedNames(m.Keys);
    AscendingUnique(ks, Sorted(m.Keys));
    r := [];
    while |r| < |ks|
      invariant |r| <= |ks| && forall i :: 0 <= i < |r| ==> ks[i] in m && r[i] == show(ks[i], m[ks[i]])
    {
      assert ks[|r|] in ks;
      r := r + [show(ks[|r|], m[ks[|r|]])];
    }
  }

  /** A map's values in key order load back into it. */
  lemma LoadValues<T>(m: map<string, T>, offers: seq<T>, check: T -> Option<Error>, key: T -> string)
    requires Holds(m, offers, key) && Loadable(offers, check, key)
    ensures Load(Values(m), check, key) == Ok(m) && |Values(m)| == |m| == |offers|
    ensures multiset(Values(m)) == multiset(offers)
  {
    var ks, vs := Sorted(m.Keys), Values(m);
    forall i | 0 <= i < |vs|
      ensures ks[i] in m && vs[i] == m[ks[i]] && key(vs[i]) == ks[i] && check(vs[i]).None? && vs[i] in offers
    {
      assert ks[i] in ks;
    }
    forall i, j | 0 <= i < j < |vs|
      ensures key(vs[i]) != key(vs[j])
    {
      Irreflexive(ks[i]);
    }
    LoadIs(vs, check, key);
    forall o
      ensures o in offers <==> o in vs
    {
      if o in offers {
        var i :| 0 <= i < |offers| && offers[i] == o;
        assert key(o) in ks;
        var j :| 0 <= j < |ks| && ks[j] == key(o);
        assert vs[j] == o;
      }
    }
    HoldsOne(m, Load(vs, check, key).value, offers, vs, key);
    SameCounts(offers, vs, check, key);
    KeysCount(m, ks);
  }

  lemma KeysCount<T>(m: map<string, T>, ks: seq<string>)
    requires Ascending(ks) && forall x :: x in ks <==> x in m
    ensures |ks| == |m|
  {
    AscendingCount(ks, m.Keys);
  }

  lemma {:induction false} AscendingCount(ks: seq<string>, s: set<string>)
    requires Ascending(ks) && forall x :: x in ks <==> x in s
    ensures |ks| == |s|
  {
    if ks == [] {
      assert s == {};
    } else {
      forall x
        ensures x in ks[1..] <==> x in s - {ks[0]}
      {
        Tail(ks, x);
      }
      assert ks[0] in s;
      AscendingCount(ks[1..], s - {ks[0]});
    }
  }

  /** Two loadable lists of the same offers are permutations of each other. */
  lemma SameCounts<T>(a: seq<T>, b: seq<T>, check: T -> Option<Error>, key: T -> string)
    requires Loadable(a, check, key) && Loadable(b, check, key) && forall o :: o in a <==> o in b
    ensures multiset(a) == multiset(b) && |a| == |b|
  {
    forall o
      ensures multiset(a)[o] == multiset(b)[o]
    {
      if o in a {
        var i :| 0 <= i < |a| && a[i] == o;
        assert o in b;
        var j :| 0 <= j < |b| && b[j] == o;
        NotTwice(a, check, key, i);
        NotTwice(b, check, key, j);
      } else {
        assert o !in b;
      }
    }
    SameMembers(a, b);
  }
}
