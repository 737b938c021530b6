/**
 The registry object: each lock-held section as a method that changes the
 fields, proved to be the section of RegistryState. The victims a method
 returns, which its caller closes once the lock is released, are the entries
 the section marked closed, each once.
 */
module RegistryObject {
  import opened Common
  import opened RegistryState
  import RegistrySystem

  class Registry {
    const limit: int
    var entries: seq<Entry>
    var table: map<Key, nat>
    var lru: seq<nat>
    var closing: bool

    ghost function State(): Reg
      reads this
    {
      Reg(limit, entries, table, lru, closing)
    }

    ghost predicate Valid()
      reads this
    {
      CacheOk(State()) && ClosedOut(entries)
    }

    constructor (limit: int)
      ensures Valid() && State() == NewReg(limit)
    {
      this.limit := limit;
      entries, table, lru, closing := [], map[], [], false;
    }

    method RemoveLocked(i: nat)
      requires i < |entries|
      modifies this
      ensures State() == Drop(old(State()), i)
    {
      if entries[i].evicted {
        return;
      }
      entries := entries[i := entries[i].(evicted := true)];
      table := table - {entries[i].key};
      if i in lru {
        lru := Remove(lru, Index(lru, i));
      }
    }

    /** An idle entry leaves the cache, marked closed. */
    method PutOut(i: nat)
      requires Valid() && i < |entries| && !entries[i].evicted
      modifies this
      ensures Valid() && State() == Put(Drop(old(State()), i), i, Drop(old(State()), i).entries[i].(closed := true))
      ensures entries == old(entries)[i := old(entries)[i].(evicted := true, closed := true)]
    {
      hide TableOk, LruOk;
      DropOk(State(), i, entries[i].(evicted := true, closed := true));
      RemoveLocked(i);
      entries := entries[i := entries[i].(closed := true)];
    }

    method EvictLocked() returns (victims: seq<nat>)
      requires Valid()
      modifies this
      ensures Valid() && State() == Evict(old(State()), |old(lru)|)
      ensures |entries| == |old(entries)| && Victims(old(entries), entries, victims)
    {
      hide TableOk, Evict, Victims, Without, Drop, Put;
      victims := [];
      var p: nat := |lru|;
      NoVictims(entries);
      while p > 0 && |table| > limit
        invariant Valid() && p <= |lru| && |entries| == |old(entries)|
        invariant Evict(State(), p) == Evict(old(State()), |old(lru)|)
        invariant Victims(old(entries), entries, victims)
        invariant forall q :: 0 <= q < |entries| && !entries[q].evicted ==> entries[q] == old(entries)[q]
        decreases p
      {
        EvictUnfold(State(), p);
        p := p - 1;
        var i := lru[p];
        if entries[i].refs == 0 {
          ghost var es := entries;
          PutOut(i);
          MoreVictims(old(entries), es, entries, victims, i);
          victims := victims + [i];
        }
      }
      EvictEnds(State(), p);
    }

    /** acquireKey's section: the entry held, and whether the caller is to open it. */
    method AcquireLocked(key: Key) returns (r: Taken, victims: seq<nat>)
      requires Valid()
      modifies this
      ensures Valid() && (State(), r) == Take(old(State()), key)
      ensures |old(entries)| <= |entries| && Victims(old(entries), entries[..|old(entries)|], victims)
    {
      hide TableOk, LruOk, Without, Evict, Victims;
      victims := [];
      assert Victims(entries, entries[..|entries|], []) by {
        assert entries[..|entries|] == entries;
        NoVictims(entries);
      }
      if closing {
        r := Refused;
      } else if key in table {
        var i := table[key];
        ghost var was := entries;
        RegistrySystem.TableAt(State(), key);
        RegistrySystem.HitCache(State(), key);
        entries := entries[i := entries[i].(refs := entries[i].refs + 1)];
        lru := [i] + Without(lru, i);
        SameVictims(was, entries);
        assert entries[..|was|] == entries;
        r := Hit(i);
      } else {
        r := Made(|entries|);
        victims := Make(key);
      }
    }

    method Make(key: Key) returns (victims: seq<nat>)
      requires Valid() && key !in table
      modifies this
      ensures Valid() && CacheOk(MakeEntry(old(State()), key))
      ensures State() == Evict(MakeEntry(old(State()), key), |old(lru)| + 1)
      ensures |old(entries)| < |entries| && Victims(old(entries), entries[..|old(entries)|], victims)
    {
      hide TableOk, LruOk, Without, Evict, Victims, OldestFirst, Fits;
      MadeOk(State(), key);
      var i := |entries|;
      entries := entries + [Entry(key, Opening, false, 1, false, false)];
      lru := [i] + lru;
      table := table[key := i];
      ghost var es := entries;
      assert es[..i] == old(entries);
      RegistrySystem.LruAt(State());
      EvictEffect(State(), |lru|);
      victims := EvictLocked();
      OldVictims(es, entries, victims, i);
    }

    method ReleaseLocked(i: nat) returns (victims: seq<nat>)
      requires Valid() && i < |entries|
      modifies this
      ensures Valid() && State() == Release(old(State()), i)
      ensures Victims(old(entries), entries, victims)
    {
      hide TableOk, LruOk, Evict, Victims;
      RegistrySystem.ReleaseCache(State(), i);
      entries := entries[i := entries[i].(refs := entries[i].refs - 1)];
      ghost var es1 := entries;
      victims := EvictLocked();
      VictimsOf(old(entries), es1, entries, victims);
      if entries[i].evicted && entries[i].refs == 0 && !entries[i].closed {
        ghost var es2, s2 := entries, State();
        NotClosed(old(entries), entries, victims, i);
        entries := entries[i := entries[i].(closed := true)];
        RegistrySystem.SameTable(s2, State());
        ClosesOne(s2, State());
        MoreVictims(old(entries), es2, entries, victims, i);
        victims := victims + [i];
      }
    }

    method CloseLocked() returns (victims: seq<nat>)
      requires Valid()
      modifies this
      ensures Valid() && State() == CloseAll(old(State()))
      ensures Victims(old(entries), entries, victims)
    {
      hide TableOk, Victims, Without, LruOk;
      closing := true;
      NoVictims(entries);
      CacheAgrees(old(State()), State());
      victims := [];
      while table != map[]
        invariant Valid() && closing && |entries| == |old(entries)|
        invariant Victims(old(entries), entries, victims)
        invariant forall q :: 0 <= q < |entries| ==> Goes(old(entries)[q], entries[q])
        decreases |table|
      {
        var key :| key in table;
        RegistrySystem.TableAt(State(), key);
        var more := CloseOne(table[key], old(entries), victims);
        victims := victims + more;
      }
      EmptyCache(State());
      assert entries == CloseAll(old(State())).entries;
    }

    /** One turn of close's loop. */
    method CloseOne(i: nat, ghost was: seq<Entry>, ghost victims: seq<nat>) returns (more: seq<nat>)
      requires Valid() && i < |entries| && !entries[i].evicted && |was| == |entries|
      requires Victims(was, entries, victims) && forall q :: 0 <= q < |entries| ==> Goes(was[q], entries[q])
      modifies this
      ensures Valid() && closing == old(closing) && |table| < |old(table)| && |entries| == |was|
      ensures Victims(was, entries, victims + more) && forall q :: 0 <= q < |entries| ==> Goes(was[q], entries[q])
    {
      hide TableOk, Victims, Without, LruOk;
      ghost var es := entries;
      ghost var s := State();
      DropOk(s, i, Gone(es[i]));
      DropOk(s, i, es[i].(evicted := true));
      RemoveLocked(i);
      more := [];
      assert State() == Put(Drop(s, i), i, es[i].(evicted := true));
      if entries[i].refs == 0 && !entries[i].closed {
        entries := entries[i := entries[i].(closed := true)];
        assert State() == Put(Drop(s, i), i, Gone(es[i]));
        MoreVictims(was, es, entries, victims, i);
        more := [i];
      } else {
        SameClosed(was, es, entries, victims);
        assert victims + more == victims;
      }
    }
  }

  /** What close has made of an entry so far: nothing, or what it makes of those in the table. */
  predicate Goes(e: Entry, e': Entry) {
    if e.evicted then e' == e else e' == e || e' == Gone(e)
  }

  lemma SameClosed(was: seq<Entry>, es: seq<Entry>, fs: seq<Entry>, victims: seq<nat>)
    requires Victims(was, es, victims) && |fs| == |es| && forall i :: 0 <= i < |es| ==> fs[i].closed == es[i].closed
    ensures Victims(was, fs, victims)
  {
  }

  lemma CacheAgrees(s: Reg, t: Reg)
    requires CacheOk(s) && t.entries == s.entries && t.table == s.table && t.lru == s.lru
    ensures CacheOk(t)
  {
  }

  lemma EmptyCache(s: Reg)
    requires CacheOk(s) && s.table == map[]
    ensures s.lru == [] && forall i :: 0 <= i < |s.entries| ==> s.entries[i].evicted
  {
    HasOne(s.lru);
  }

  lemma HasOne(q: seq<nat>)
    ensures q == [] || exists x :: x in q
  {
    if q != [] {
      assert q[0] in q;
    }
  }

  lemma EvictUnfold(s: Reg, p: nat)
    requires CacheOk(s) && 0 < p <= |s.lru| && |s.table| > s.limit
    ensures var i := s.lru[p - 1];
            && i < |s.entries| && !s.entries[i].evicted
            && (s.entries[i].refs != 0 ==> Evict(s, p) == Evict(s, p - 1))
            && (s.entries[i].refs == 0 ==>
                var t := Put(Drop(s, i), i, Drop(s, i).entries[i].(closed := true));
                CacheOk(t) && p - 1 <= |t.lru| && Evict(s, p) == Evict(t, p - 1))
  {
    hide TableOk;
    var i := s.lru[p - 1];
    assert Index(s.lru, i) == p - 1;
    DropOk(s, i, s.entries[i].(evicted := true, closed := true));
  }

  lemma EvictEnds(s: Reg, p: nat)
    requires CacheOk(s) && p <= |s.lru| && (p == 0 || |s.table| <= s.limit)
    ensures Evict(s, p) == s
  {
  }

  lemma NoVictims(es: seq<Entry>)
    ensures Victims(es, es, [])
  {
  }

  lemma SameVictims(es: seq<Entry>, fs: seq<Entry>)
    requires |fs| == |es| && forall i :: 0 <= i < |es| ==> fs[i].closed == es[i].closed
    ensures Victims(es, fs, [])
  {
  }

  lemma VictimsOf(was: seq<Entry>, es: seq<Entry>, fs: seq<Entry>, victims: seq<nat>)
    requires Victims(es, fs, victims) && |was| == |es| && forall i :: 0 <= i < |es| ==> was[i].closed == es[i].closed
    ensures Victims(was, fs, victims)
  {
  }

  lemma NotClosed(es: seq<Entry>, fs: seq<Entry>, victims: seq<nat>, i: nat)
    requires Victims(es, fs, victims) && i < |fs| && !fs[i].closed
    ensures i !in victims && !es[i].closed
  {
  }

  lemma ClosesOne(s: Reg, t: Reg)
    requires LruOk(s) && t.lru == s.lru && |t.entries| == |s.entries|
    requires forall i :: 0 <= i < |s.entries| ==> t.entries[i].evicted == s.entries[i].evicted
    ensures LruOk(t)
  {
  }

  /** Only what is out of the cache is closed. */
  ghost predicate ClosedOut(es: seq<Entry>) {
    forall i :: 0 <= i < |es| && es[i].closed ==> es[i].evicted
  }

  lemma OldVictims(es: seq<Entry>, fs: seq<Entry>, victims: seq<nat>, n: nat)
    requires Victims(es, fs, victims) && |es| == n + 1 && !fs[n].closed
    ensures Victims(es[..n], fs[..n], victims)
  {
  }

  /** victims are the entries marked closed since es, each once. */
  ghost predicate Victims(es: seq<Entry>, fs: seq<Entry>, victims: seq<nat>) {
    && |fs| == |es| && Distinct(victims)
    && (forall i :: i in victims ==> i < |fs|)
    && (forall i :: 0 <= i < |fs| ==> (es[i].closed ==> fs[i].closed))
    && (forall i :: 0 <= i < |fs| ==> (i in victims <==> fs[i].closed && !es[i].closed))
  }

  lemma MoreVictims(es: seq<Entry>, fs: seq<Entry>, hs: seq<Entry>, victims: seq<nat>, i: nat)
    requires Victims(es, fs, victims) && i < |fs| && |hs| == |fs| && !fs[i].closed && !es[i].closed && hs[i].closed
    requires forall j :: 0 <= j < |fs| && j != i ==> hs[j] == fs[j]
    ensures Victims(es, hs, victims + [i])
  {
  }
}
