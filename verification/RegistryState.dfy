/**
 The cache of open stores (internal/aml/registry.go): its state and its
 lock-held sections.

 An entry (*userEntry) is named by its index in `entries`, never reused, so
 that a request keeps its name after the cache has let it go. `lru` has the
 most recently used entry first.
 */
module RegistryState {
  import opened Common

  type Key = string

  /** What opening the store came to; ready (closed once it is known) is a field of its own. */
  datatype Status = Opening | Open | Failed

  datatype Entry = Entry(key: Key, status: Status, ready: bool, refs: int, evicted: bool, closed: bool)

  datatype Reg = Reg(limit: int, entries: seq<Entry>, table: map<Key, nat>, lru: seq<nat>, closing: bool)

  function NewReg(limit: int): Reg {
    Reg(limit, [], map[], [], false)
  }

  function Put(s: Reg, i: nat, e: Entry): Reg
    requires i < |s.entries|
  {
    s.(entries := s.entries[i := e])
  }

  function Without(lru: seq<nat>, i: nat): seq<nat> {
    if i in lru then Remove(lru, Index(lru, i)) else lru
  }

  /** removeLocked. */
  function Drop(s: Reg, i: nat): (r: Reg)
    requires i < |s.entries|
    ensures |r.entries| == |s.entries|
  {
    if s.entries[i].evicted then s
    else
      Put(s, i, s.entries[i].(evicted := true))
        .(table := s.table - {s.entries[i].key}, lru := Without(s.lru, i))
  }

  /** evictLocked, with the places of the list from p on, the back, already passed. */
  function Evict(s: Reg, p: nat): (r: Reg)
    requires p <= |s.lru| && forall q :: 0 <= q < |s.lru| ==> s.lru[q] < |s.entries|
    requires Distinct(s.lru)
    ensures |r.entries| == |s.entries|
    decreases p
  {
    if p == 0 || |s.table| <= s.limit then s
    else
      var i := s.lru[p - 1];
      if s.entries[i].refs == 0 then
        assert Index(s.lru, i) == p - 1;
        var s1 := Drop(s, i);
        DistinctRemove(s.lru, p - 1);
        Evict(Put(s1, i, s1.entries[i].(closed := true)), p - 1)
      else Evict(s, p - 1)
  }

  // ---- what the table and the list are to each other ----

  ghost predicate TableOk(s: Reg) {
    && (forall k :: k in s.table ==>
        s.table[k] < |s.entries| && s.entries[s.table[k]].key == k && !s.entries[s.table[k]].evicted)
    && (forall i :: 0 <= i < |s.entries| && !s.entries[i].evicted ==>
        s.entries[i].key in s.table && s.table[s.entries[i].key] == i)
  }

  ghost predicate LruOk(s: Reg) {
    && Distinct(s.lru)
    && (forall q :: 0 <= q < |s.lru| ==> s.lru[q] < |s.entries| && !s.entries[s.lru[q]].evicted)
    && (forall i :: 0 <= i < |s.entries| && !s.entries[i].evicted ==> i in s.lru)
  }

  ghost predicate CacheOk(s: Reg) {
    TableOk(s) && LruOk(s)
  }

  // ---- the sections ----

  datatype Taken = Refused | Hit(entry: nat) | Made(entry: nat)

  /** acquireKey's section: the entry of key, held, or a new one for the caller to open. */
  function Take(s: Reg, key: Key): (Reg, Taken)
    requires CacheOk(s)
  {
    if s.closing then (s, Refused)
    else if key in s.table then
      var i := s.table[key];
      (Put(s, i, s.entries[i].(refs := s.entries[i].refs + 1)).(lru := [i] + Without(s.lru, i)), Hit(i))
    else
      var s1 := MakeEntry(s, key);
      MadeOk(s, key);
      (Evict(s1, |s1.lru|), Made(|s.entries|))
  }

  function MakeEntry(s: Reg, key: Key): Reg {
    s.(entries := s.entries + [Entry(key, Opening, false, 1, false, false)],
       lru := [|s.entries|] + s.lru, table := s.table[key := |s.entries|])
  }

  lemma MadeOk(s: Reg, key: Key)
    requires CacheOk(s) && key !in s.table
    ensures CacheOk(MakeEntry(s, key))
  {
    var t := MakeEntry(s, key);
    forall i | 0 <= i < |t.entries| && !t.entries[i].evicted
      ensures i in t.lru
    {
      if i < |s.entries| {
        assert i in s.lru;
      } else {
        assert t.lru[0] == i;
      }
    }
  }

  function Release(s: Reg, i: nat): Reg
    requires CacheOk(s) && i < |s.entries|
  {
    var s1 := Put(s, i, s.entries[i].(refs := s.entries[i].refs - 1));
    var s2 := Evict(s1, |s1.lru|);
    if s2.entries[i].evicted && s2.entries[i].refs == 0 && !s2.entries[i].closed
    then Put(s2, i, s2.entries[i].(closed := true)) else s2
  }

  /** What close does to one entry of the table. */
  function Gone(e: Entry): Entry {
    e.(evicted := true, closed := e.closed || e.refs == 0)
  }

  function CloseAll(s: Reg): (r: Reg)
    ensures |r.entries| == |s.entries|
  {
    s.(closing := true, table := map[], lru := [],
       entries := seq(|s.entries|, i requires 0 <= i < |s.entries| =>
                        if s.entries[i].evicted then s.entries[i] else Gone(s.entries[i])))
  }

  // ---- what the eviction loop does, entry by entry ----

  lemma DropTable(s: Reg, i: nat, e: Entry)
    requires TableOk(s) && i < |s.entries| && !s.entries[i].evicted
    requires e.key == s.entries[i].key && e.evicted
    ensures TableOk(Put(Drop(s, i), i, e)) && |Drop(s, i).table| == |s.table| - 1
  {
    hide Without;
    var t := Put(Drop(s, i), i, e);
    assert s.table.Keys == t.table.Keys + {e.key};
  }

  lemma DropLru(s: Reg, i: nat, e: Entry)
    requires LruOk(s) && i < |s.entries| && !s.entries[i].evicted && e.evicted
    ensures LruOk(Put(Drop(s, i), i, e)) && i in s.lru && Drop(s, i).lru == Remove(s.lru, Index(s.lru, i))
  {
    DistinctRemove(s.lru, Index(s.lru, i));
    var t := Put(Drop(s, i), i, e);
    forall q | 0 <= q < |t.lru|
      ensures t.lru[q] < |t.entries| && !t.entries[t.lru[q]].evicted
    {
      assert t.lru[q] in t.lru;
    }
  }

  lemma DropOk(s: Reg, i: nat, e: Entry)
    requires CacheOk(s) && i < |s.entries| && !s.entries[i].evicted
    requires e.key == s.entries[i].key && e.evicted
    ensures CacheOk(Put(Drop(s, i), i, e)) && i in s.lru && Drop(s, i).lru == Remove(s.lru, Index(s.lru, i))
    ensures |Drop(s, i).table| == |s.table| - 1
  {
    hide TableOk, LruOk, Drop;
    DropTable(s, i, e);
    DropLru(s, i, e);
  }

  /** The entry was idle in the cache, and the loop put it out and marked it closed. */
  predicate PutOut(e: Entry, e': Entry) {
    !e.evicted && e.refs == 0 && e' == e.(evicted := true, closed := true)
  }

  /** Only idle entries go, and only from the places before p. */
  ghost predicate OnlyIdle(s: Reg, p: nat, t: Reg)
    requires p <= |s.lru|
  {
    && |t.entries| == |s.entries|
    && forall i :: 0 <= i < |s.entries| ==>
      t.entries[i] == s.entries[i] || (PutOut(s.entries[i], t.entries[i]) && i in s.lru[..p])
  }

  /** One goes only if every idle entry behind it, less recently used, goes too. */
  ghost predicate OldestFirst(s: Reg, p: nat, t: Reg)
    requires p <= |s.lru| && |t.entries| == |s.entries| && forall q :: 0 <= q < |s.lru| ==> s.lru[q] < |s.entries|
  {
    forall q, r :: 0 <= q < r < p && t.entries[s.lru[q]].evicted && !t.entries[s.lru[r]].evicted ==>
      s.entries[s.lru[r]].refs != 0
  }

  /** The cache ends within its limit or with no idle entry, and no smaller than the limit if any went. */
  ghost predicate Fits(s: Reg, p: nat, t: Reg)
    requires p <= |s.lru| && |t.entries| == |s.entries| && forall q :: 0 <= q < |s.lru| ==> s.lru[q] < |s.entries|
  {
    && (|t.table| <= s.limit || forall q :: 0 <= q < p && !t.entries[s.lru[q]].evicted ==>
        s.entries[s.lru[q]].refs != 0)
    && (t == s || |t.table| >= s.limit)
  }

  /**
   The loop puts out idle entries only, each one only if every idle entry
   behind it is out too, no more than bring the cache to its limit, and
   stops short of the limit only with no idle entry left.
   */
  ghost predicate Evicted(s: Reg, p: nat, t: Reg)
    requires p <= |s.lru| && forall q :: 0 <= q < |s.lru| ==> s.lru[q] < |s.entries|
  {
    OnlyIdle(s, p, t) && OldestFirst(s, p, t) && Fits(s, p, t) && t.limit == s.limit && t.closing == s.closing
  }

  lemma {:induction false} EvictEffect(s: Reg, p: nat)
    requires CacheOk(s) && p <= |s.lru|
    ensures CacheOk(Evict(s, p)) && Evicted(s, p, Evict(s, p))
    ensures forall i, j :: 0 <= i < j < |Evict(s, p).lru| ==> Precedes(s.lru, Evict(s, p).lru[i], Evict(s, p).lru[j])
    decreases p
  {
    hide Precedes, Evicted, TableOk;
    if p == 0 || |s.table| <= s.limit {
      KeepsOrder(s.lru);
      EvictsNone(s, p);
    } else {
      var i := s.lru[p - 1];
      if s.entries[i].refs == 0 {
        EvictsOne(s, p);
      } else {
        EvictEffect(s, p - 1);
        PassesOne(s, p, Evict(s, p - 1));
      }
    }
  }

  lemma EvictsNone(s: Reg, p: nat)
    requires LruOk(s) && p <= |s.lru| && (p == 0 || |s.table| <= s.limit)
    ensures Evicted(s, p, s)
  {
  }

  /** x stands before y in the list. */
  ghost predicate Precedes(lru: seq<nat>, x: nat, y: nat) {
    exists a, b :: 0 <= a < b < |lru| && lru[a] == x && lru[b] == y
  }

  lemma KeepsOrder(lru: seq<nat>)
    ensures forall i, j :: 0 <= i < j < |lru| ==> Precedes(lru, lru[i], lru[j])
  {
  }

  lemma PassesOne(s: Reg, p: nat, t: Reg)
    requires CacheOk(s) && 0 < p <= |s.lru| && s.entries[s.lru[p - 1]].refs != 0
    requires Evicted(s, p - 1, t)
    ensures Evicted(s, p, t)
  {
    hide TableOk, PutOut;
    assert OnlyIdle(s, p, t) by {
      assert s.lru[..p] == s.lru[..p - 1] + [s.lru[p - 1]];
    }
    assert OldestFirst(s, p, t);
  }

  lemma EvictsOne(s: Reg, p: nat)
    requires CacheOk(s) && 0 < p <= |s.lru| && |s.table| > s.limit && s.entries[s.lru[p - 1]].refs == 0
    ensures CacheOk(Evict(s, p)) && Evicted(s, p, Evict(s, p))
    ensures forall i, j :: 0 <= i < j < |Evict(s, p).lru| ==> Precedes(s.lru, Evict(s, p).lru[i], Evict(s, p).lru[j])
    decreases p, 0
  {
    hide Precedes, Evicted, TableOk;
    var i := s.lru[p - 1];
    var e := s.entries[i].(evicted := true, closed := true);
    assert Index(s.lru, i) == p - 1;
    DropOk(s, i, e);
    var s1 := Put(Drop(s, i), i, e);
    assert s1.lru == Remove(s.lru, p - 1);
    EvictEffect(s1, p - 1);
    var t := Evict(s, p);
    assert t == Evict(s1, p - 1);
    PutsOne(s, p, s1, t);
    forall a, b | 0 <= a < b < |t.lru|
      ensures Precedes(s.lru, t.lru[a], t.lru[b])
    {
      OrderRemoved(s.lru, p - 1, t.lru[a], t.lru[b]);
    }
  }

  lemma OrderRemoved(lru: seq<nat>, p: nat, x: nat, y: nat)
    requires p < |lru| && Precedes(Remove(lru, p), x, y)
    ensures Precedes(lru, x, y)
  {
    var r := Remove(lru, p);
    var a, b :| 0 <= a < b < |r| && r[a] == x && r[b] == y;
    var a', b' := if a < p then a else a + 1, if b < p then b else b + 1;
    assert lru[a'] == x && lru[b'] == y;
  }

  ghost predicate OneOut(s: Reg, p: nat, s1: Reg)
    requires LruOk(s) && 0 < p <= |s.lru|
  {
    var i := s.lru[p - 1];
    && s.entries[i].refs == 0
    && s1.entries == s.entries[i := s.entries[i].(evicted := true, closed := true)]
    && s1.lru == Remove(s.lru, p - 1) && s1.limit == s.limit && s1.closing == s.closing
    && |s1.table| == |s.table| - 1
  }

  lemma PutsOne(s: Reg, p: nat, s1: Reg, t: Reg)
    requires LruOk(s) && LruOk(s1) && 0 < p <= |s.lru| && |s.table| > s.limit
    requires OneOut(s, p, s1) && Evicted(s1, p - 1, t)
    ensures Evicted(s, p, t)
  {
    hide OnlyIdle, OldestFirst, LruOk;
    PutsIdle(s, p, s1, t);
    PutsOldest(s, p, s1, t);
    PutsFits(s, p, s1, t);
  }

  lemma PutsIdle(s: Reg, p: nat, s1: Reg, t: Reg)
    requires LruOk(s) && 0 < p <= |s.lru| && OneOut(s, p, s1) && OnlyIdle(s1, p - 1, t)
    ensures OnlyIdle(s, p, t) && t.entries[s.lru[p - 1]].evicted
  {
    assert s1.lru[..p - 1] == s.lru[..p - 1];
    assert s.lru[..p] == s.lru[..p - 1] + [s.lru[p - 1]];
  }

  lemma PutsOldest(s: Reg, p: nat, s1: Reg, t: Reg)
    requires LruOk(s) && LruOk(s1) && 0 < p <= |s.lru| && OneOut(s, p, s1)
    requires |t.entries| == |s.entries| && t.entries[s.lru[p - 1]].evicted && OldestFirst(s1, p - 1, t)
    ensures OldestFirst(s, p, t)
  {
    forall q, r | 0 <= q < r < p && t.entries[s.lru[q]].evicted && !t.entries[s.lru[r]].evicted
      ensures s.entries[s.lru[r]].refs != 0
    {
      assert r != p - 1 && s1.lru[q] == s.lru[q] && s1.lru[r] == s.lru[r];
    }
  }

  lemma PutsFits(s: Reg, p: nat, s1: Reg, t: Reg)
    requires LruOk(s) && LruOk(s1) && 0 < p <= |s.lru| && |s.table| > s.limit && OneOut(s, p, s1)
    requires |t.entries| == |s.entries| && t.entries[s.lru[p - 1]].evicted && Fits(s1, p - 1, t)
    ensures Fits(s, p, t)
  {
    forall q | 0 <= q < p - 1
      ensures s1.lru[q] == s.lru[q] && s1.entries[s.lru[q]] == s.entries[s.lru[q]]
    {
    }
  }
}
