/**
 The registry with every request that acquires and releases, in every
 interleaving: a step is one lock-held section, the end of an open, the close
 of an entry's ready channel, a wake-up, or the close of one store.
 */
module RegistrySystem {
  import opened Common
  import opened RegistryState

  /** Where a request is between acquireKey's section and the end of its release; each counts as a ref. */
  datatype Thread =
    | Waiting(entry: nat)
    | Opens(entry: nat)
    | Unlisting(entry: nat)
    | Announcing(entry: nat)
    | Leaving(entry: nat)
    | Holding(entry: nat)

  /**
   toClose: the entries some section has left its caller to close; shut: those
   closed, in order; used: when each entry was last acquired, counting acquires.
   */
  datatype System = System(s: Reg, threads: map<nat, Thread>, toClose: set<nat>, shut: seq<nat>, used: seq<nat>,
                           acquires: nat)

  datatype Event =
    | Acquires(t: nat, key: Key)
    | OpenEnds(t: nat, ok: bool)
    | Unlists(t: nat)
    | Announces(t: nat)
    | WaitEnds(t: nat, gone: bool)
    | Releases(t: nat)
    | Closes
    | Shuts(i: nat)

  ghost predicate Known(g: System) {
    && CacheOk(g.s) && |g.used| == |g.s.entries|
    && forall t :: t in g.threads ==> g.threads[t].entry < |g.s.entries|
  }

  ghost predicate Enabled(g: System, e: Event)
    requires Known(g)
  {
    match e
    case Acquires(t, key) => t !in g.threads
    case OpenEnds(t, ok) => t in g.threads && g.threads[t].Opens?
    case Unlists(t) => t in g.threads && g.threads[t].Unlisting?
    case Announces(t) => t in g.threads && g.threads[t].Announcing?
    case WaitEnds(t, gone) => t in g.threads && g.threads[t].Waiting? && (gone || g.s.entries[g.threads[t].entry].ready)
    case Releases(t) => t in g.threads && (g.threads[t].Holding? || g.threads[t].Leaving?)
    case Closes => true
    case Shuts(i) => i in g.toClose
  }

  /** The victims of a section: the entries it marked closed. */
  ghost function NewlyClosed(s: Reg, t: Reg): set<nat> {
    set i | 0 <= i < |t.entries| && t.entries[i].closed && !(i < |s.entries| && s.entries[i].closed)
  }

  ghost function Become(g: System, t: Reg): System {
    g.(s := t, toClose := g.toClose + NewlyClosed(g.s, t))
  }

  ghost function Apply(g: System, e: Event): System
    requires Known(g) && Enabled(g, e)
  {
    match e
    case Acquires(t, key) => Acquire(g, t, key)
    case OpenEnds(t, ok) =>
      var i := g.threads[t].entry;
      g.(s := Put(g.s, i, g.s.entries[i].(status := if ok then Open else Failed)),
         threads := g.threads[t := if ok then Announcing(i) else Unlisting(i)])
    case Unlists(t) =>
      var i := g.threads[t].entry;
      Become(g, Drop(g.s, i)).(threads := g.threads[t := Announcing(i)])
    case Announces(t) =>
      var i := g.threads[t].entry;
      g.(s := Put(g.s, i, g.s.entries[i].(ready := true)), threads := g.threads[t := Answered(g, i)])
    case WaitEnds(t, gone) =>
      var i := g.threads[t].entry;
      g.(threads := g.threads[t := if gone then Leaving(i) else Answered(g, i)])
    case Releases(t) => Become(g, Release(g.s, g.threads[t].entry)).(threads := g.threads - {t})
    case Closes => Become(g, CloseAll(g.s))
    case Shuts(i) => g.(toClose := g.toClose - {i}, shut := g.shut + [i])
  }

  ghost function Acquire(g: System, t: nat, key: Key): System
    requires Known(g)
  {
    var r := Take(g.s, key);
    var g' := Become(g, r.0);
    match r.1
    case Refused => g'
    case Hit(i) => g'.(threads := g.threads[t := Waiting(i)], used := g.used[i := g.acquires],
                       acquires := g.acquires + 1)
    case Made(i) => g'.(threads := g.threads[t := Opens(i)], used := g.used + [g.acquires], acquires := g.acquires + 1)
  }

  /** A request that sees the entry ready returns it, or releases it and returns the open's error. */
  ghost function Answered(g: System, i: nat): Thread
    requires i < |g.s.entries|
  {
    if g.s.entries[i].status.Failed? then Leaving(i) else Holding(i)
  }

  ghost predicate Step(g: System, e: Event, g': System) {
    Known(g) && Enabled(g, e) && g' == Apply(g, e)
  }

  ghost predicate Start0(g: System) {
    g == System(NewReg(g.s.limit), map[], {}, [], [], 0)
  }

  ghost predicate IsRun(states: seq<System>, events: seq<Event>) {
    && |states| == |events| + 1
    && forall i :: 0 <= i < |events| ==> Step(states[i], events[i], states[i + 1])
  }

  // ---- what every run keeps ----

  ghost function On(threads: map<nat, Thread>, i: nat): set<nat> {
    set t | t in threads && threads[t].entry == i
  }

  /** An entry someone holds whose open has not failed. */
  predicate Live(e: Entry) {
    e.refs > 0 && !e.status.Failed?
  }

  /**
   One entry: its refs are its holders; it is closed exactly once it is out of
   the cache and not held; held and not failed, only close takes it out.
   */
  ghost predicate EntryOk(e: Entry, holders: int, closing: bool) {
    && e.refs == holders >= 0
    && (e.closed <==> e.evicted && e.refs == 0)
    && (e.evicted && Live(e) ==> closing)
    && (closing ==> e.evicted)
    && (e.ready ==> !e.status.Opening?)
    && (e.ready && e.status.Failed? ==> e.evicted)
  }

  ghost predicate EntriesOk(g: System) {
    forall i :: 0 <= i < |g.s.entries| ==> EntryOk(g.s.entries[i], |On(g.threads, i)|, g.s.closing)
  }

  /** The stores to close and those closed are the entries marked closed, each once. */
  ghost predicate ShutOk(entries: seq<Entry>, toClose: set<nat>, shut: seq<nat>) {
    && Distinct(shut)
    && (forall i: nat :: i in toClose ==> i !in shut)
    && (forall i: nat :: i in toClose || i in shut <==> i < |entries| && entries[i].closed)
  }

  predicate Opener(th: Thread) {
    th.Opens? || th.Unlisting? || th.Announcing?
  }

  ghost predicate ThreadOk(th: Thread, e: Entry) {
    && (Opener(th) ==> !e.ready)
    && (th.Opens? ==> e.status.Opening?)
    && (th.Unlisting? ==> e.status.Failed?)
    && (th.Announcing? ==> !e.status.Opening? && (e.status.Failed? ==> e.evicted))
    && (th.Holding? ==> e.ready && e.status.Open?)
  }

  ghost predicate ThreadsOk(entries: seq<Entry>, threads: map<nat, Thread>)
    requires forall t :: t in threads ==> threads[t].entry < |entries|
  {
    && (forall t :: t in threads ==> ThreadOk(threads[t], entries[threads[t].entry]))
    && (forall t, u :: t in threads && u in threads && t != u && Opener(threads[t]) && Opener(threads[u]) ==>
        threads[t].entry != threads[u].entry)
  }

  /** No two entries of one user are both held with a store that opened or may open. */
  ghost predicate UniqueOk(entries: seq<Entry>) {
    forall i, j :: 0 <= i < |entries| && 0 <= j < |entries| && i != j && entries[i].key == entries[j].key ==>
      !(Live(entries[i]) && Live(entries[j]))
  }

  ghost predicate BoundOk(s: Reg)
    requires LruOk(s)
  {
    |s.table| <= s.limit || forall q :: 0 <= q < |s.lru| ==> s.entries[s.lru[q]].refs != 0
  }

  /** The list is in the order of the last acquires, the latest first. */
  ghost predicate UsedOk(lru: seq<nat>, used: seq<nat>, acquires: nat) {
    && (forall i :: 0 <= i < |used| ==> used[i] < acquires)
    && (forall q :: 0 <= q < |lru| ==> lru[q] < |used|)
    && (forall q, r :: 0 <= q < r < |lru| ==> used[lru[q]] > used[lru[r]])
  }

  ghost predicate SysInv(g: System) {
    && Known(g)
    && EntriesOk(g)
    && ShutOk(g.s.entries, g.toClose, g.shut)
    && ThreadsOk(g.s.entries, g.threads)
    && UniqueOk(g.s.entries)
    && BoundOk(g.s)
    && UsedOk(g.s.lru, g.used, g.acquires)
  }

  // ---- counting the holders ----

  lemma OnAdd(threads: map<nat, Thread>, t: nat, th: Thread, i: nat)
    requires t !in threads
    ensures |On(threads[t := th], i)| == |On(threads, i)| + if th.entry == i then 1 else 0
  {
    var threads' := threads[t := th];
    if th.entry == i {
      assert On(threads', i) == On(threads, i) + {t};
    } else {
      assert On(threads', i) == On(threads, i);
    }
  }

  lemma OnEnd(threads: map<nat, Thread>, t: nat, i: nat)
    requires t in threads
    ensures |On(threads - {t}, i)| == |On(threads, i)| - if threads[t].entry == i then 1 else 0
  {
    var threads' := threads - {t};
    if threads[t].entry == i {
      assert On(threads, i) == On(threads', i) + {t};
    } else {
      assert On(threads', i) == On(threads, i);
    }
  }

  lemma OnStay(threads: map<nat, Thread>, t: nat, th: Thread, i: nat)
    requires t in threads && th.entry == threads[t].entry
    ensures On(threads[t := th], i) == On(threads, i)
  {
  }

  lemma OnHolder(threads: map<nat, Thread>, t: nat)
    requires t in threads
    ensures |On(threads, threads[t].entry)| > 0
  {
    assert t in On(threads, threads[t].entry);
  }

  // ---- marking entries closed ----

  lemma ShutGrows(es: seq<Entry>, fs: seq<Entry>, s: Reg, t: Reg, toClose: set<nat>, shut: seq<nat>)
    requires s.entries == es && t.entries == fs && |es| <= |fs| && ShutOk(es, toClose, shut)
    requires forall i :: 0 <= i < |es| ==> (es[i].closed ==> fs[i].closed)
    ensures ShutOk(fs, toClose + NewlyClosed(s, t), shut)
  {
    forall i: nat
      ensures i in toClose + NewlyClosed(s, t) || i in shut <==> i < |fs| && fs[i].closed
    {
      assert i in toClose || i in shut <==> i < |es| && es[i].closed;
    }
  }

  lemma UniqueShrinks(es: seq<Entry>, fs: seq<Entry>)
    requires UniqueOk(es) && |fs| == |es|
    requires forall i :: 0 <= i < |es| ==> fs[i].key == es[i].key && (Live(fs[i]) ==> Live(es[i]))
    ensures UniqueOk(fs)
  {
  }

  /** An entry as its threads see it: evicted at most. */
  predicate SeenAs(e: Entry, f: Entry) {
    f.status == e.status && f.ready == e.ready && (e.evicted ==> f.evicted)
  }

  lemma ThreadsKept(es: seq<Entry>, fs: seq<Entry>, threads: map<nat, Thread>, threads': map<nat, Thread>)
    requires |fs| == |es| && forall t :: t in threads ==> threads[t].entry < |es|
    requires ThreadsOk(es, threads) && forall t :: t in threads' ==> t in threads && threads'[t] == threads[t]
    requires forall i :: 0 <= i < |es| ==> SeenAs(es[i], fs[i])
    ensures ThreadsOk(fs, threads')
  {
    forall t | t in threads'
      ensures ThreadOk(threads'[t], fs[threads'[t].entry])
    {
      assert ThreadOk(threads[t], es[threads[t].entry]);
    }
  }

  /** What the invariant says of one entry. */
  lemma EntryAt(g: System, i: nat)
    requires SysInv(g) && i < |g.s.entries|
    ensures EntryOk(g.s.entries[i], |On(g.threads, i)|, g.s.closing)
  {
    hide TableOk, LruOk, ShutOk, ThreadsOk, UniqueOk, BoundOk, UsedOk, EntryOk;
  }

  lemma ThreadAt(g: System, t: nat)
    requires SysInv(g) && t in g.threads
    ensures g.threads[t].entry < |g.s.entries| && ThreadOk(g.threads[t], g.s.entries[g.threads[t].entry])
    ensures g.s.entries[g.threads[t].entry].refs > 0
  {
    hide TableOk, LruOk, ShutOk, UniqueOk, BoundOk, UsedOk, EntryOk;
    EntryAt(g, g.threads[t].entry);
    HolderCounts(g, t);
  }

  lemma HolderCounts(g: System, t: nat)
    requires t in g.threads && g.threads[t].entry < |g.s.entries|
    requires EntryOk(g.s.entries[g.threads[t].entry], |On(g.threads, g.threads[t].entry)|, g.s.closing)
    ensures g.s.entries[g.threads[t].entry].refs > 0
  {
    OnHolder(g.threads, t);
  }

  lemma Parts(g: System)
    requires SysInv(g)
    ensures Known(g) && EntriesOk(g) && ShutOk(g.s.entries, g.toClose, g.shut) && ThreadsOk(g.s.entries, g.threads)
    ensures UniqueOk(g.s.entries) && BoundOk(g.s) && UsedOk(g.s.lru, g.used, g.acquires)
  {
    hide Known, EntriesOk, ShutOk, ThreadsOk, UniqueOk, BoundOk, UsedOk;
  }

  // ---- acquireKey's section ----

  lemma MoveOk(lru: seq<nat>, i: nat, used: seq<nat>, n: nat)
    requires Distinct(lru) && i in lru && i < |used| && UsedOk(lru, used, n)
    ensures var l := [i] + Without(lru, i);
            Distinct(l) && UsedOk(l, used[i := n], n + 1) && forall x :: x in l <==> x in lru
  {
    var r := Without(lru, i);
    WithoutIs(lru, i);
    RemovedOrder(lru, Index(lru, i), used, n);
    FrontUsed(r, i, used, n);
  }

  lemma WithoutIs(lru: seq<nat>, i: nat)
    requires Distinct(lru) && i in lru
    ensures Distinct(Without(lru, i)) && forall x :: x in Without(lru, i) <==> x in lru && x != i
  {
    DistinctRemove(lru, Index(lru, i));
  }

  /** An entry just acquired goes to the front. */
  lemma FrontUsed(r: seq<nat>, i: nat, used: seq<nat>, n: nat)
    requires Distinct(r) && i !in r && i < |used| && UsedOk(r, used, n)
    ensures Distinct([i] + r) && UsedOk([i] + r, used[i := n], n + 1)
  {
    var l, u := [i] + r, used[i := n];
    forall q | 0 <= q < |r|
      ensures r[q] != i && u[r[q]] == used[r[q]] < n
    {
      assert r[q] in r;
    }
    forall q, p | 0 <= q < p < |l|
      ensures u[l[q]] > u[l[p]] && l[q] != l[p]
    {
      assert l[p] == r[p - 1];
    }
  }

  lemma HitCache(s: Reg, key: Key)
    requires CacheOk(s) && key in s.table
    ensures var i := s.table[key];
            && i in s.lru
            && CacheOk(Put(s, i, s.entries[i].(refs := s.entries[i].refs + 1)).(lru := [i] + Without(s.lru, i)))
  {
    hide Without, LruOk;
    var i := s.table[key];
    var t := Put(s, i, s.entries[i].(refs := s.entries[i].refs + 1)).(lru := [i] + Without(s.lru, i));
    HitLru(s, i, t);
  }

  lemma HitLru(s: Reg, i: nat, t: Reg)
    requires LruOk(s) && i < |s.entries| && !s.entries[i].evicted
    requires t.entries == s.entries[i := s.entries[i].(refs := s.entries[i].refs + 1)]
    requires t.lru == [i] + Without(s.lru, i)
    ensures i in s.lru && LruOk(t)
  {
    assert i in s.lru;
    DistinctRemove(s.lru, Index(s.lru, i));
    var r := Without(s.lru, i);
    forall q | 0 <= q < |r|
      ensures r[q] in s.lru && r[q] != i
    {
      assert r[q] in r;
    }
    forall j | 0 <= j < |t.entries| && !t.entries[j].evicted
      ensures j in t.lru
    {
      assert j in s.lru;
    }
  }

  lemma HitBound(g: System, s': Reg, i: nat)
    requires SysInv(g) && i < |g.s.entries| && LruOk(s') && s'.limit == g.s.limit && s'.table == g.s.table
    requires s'.entries == g.s.entries[i := g.s.entries[i].(refs := g.s.entries[i].refs + 1)]
    requires forall x :: x in s'.lru <==> x in g.s.lru
    ensures BoundOk(s')
  {
    hide TableOk, ShutOk, ThreadsOk, UniqueOk, UsedOk, EntriesOk;
    EntryAt(g, i);
    forall q | 0 <= q < |s'.lru| && |g.s.table| > g.s.limit
      ensures s'.entries[s'.lru[q]].refs != 0
    {
      assert s'.lru[q] in g.s.lru;
    }
  }

  lemma HitInv(g: System, t: nat, key: Key)
    requires SysInv(g) && t !in g.threads && !g.s.closing && key in g.s.table
    ensures SysInv(Acquire(g, t, key))
  {
    hide SysInv, Without, TableOk, EntriesOk, UniqueOk, ThreadsOk, BoundOk, UsedOk, ShutOk;
    Parts(g);
    var i := g.s.table[key];
    TableAt(g.s, key);
    HitCache(g.s, key);
    MoveOk(g.s.lru, i, g.used, g.acquires);
    var g' := Acquire(g, t, key);
    assert g'.s.entries == g.s.entries[i := g.s.entries[i].(refs := g.s.entries[i].refs + 1)];
    assert NewlyClosed(g.s, g'.s) == {};
    assert g'.toClose == g.toClose;
    SameShut(g.s.entries, g'.s.entries, g.toClose, g.shut);
    HitEntries(g, t, key, g');
    HitThreads(g, t, i, g');
    HitBound(g, g'.s, i);
    assert SysInv(g') by { Whole(g'); }
  }

  lemma TableAt(s: Reg, key: Key)
    requires TableOk(s) && key in s.table
    ensures s.table[key] < |s.entries| && s.entries[s.table[key]].key == key && !s.entries[s.table[key]].evicted
  {
  }

  lemma HitThreads(g: System, t: nat, i: nat, g': System)
    requires SysInv(g) && t !in g.threads && i < |g.s.entries| && g'.threads == g.threads[t := Waiting(i)]
    requires g'.s.entries == g.s.entries[i := g.s.entries[i].(refs := g.s.entries[i].refs + 1)]
    ensures (forall u :: u in g'.threads ==> g'.threads[u].entry < |g'.s.entries|)
    ensures ThreadsOk(g'.s.entries, g'.threads)
  {
    hide TableOk, LruOk, ShutOk, EntriesOk, UniqueOk, BoundOk, UsedOk;
  }

  lemma Whole(g: System)
    requires Known(g) && EntriesOk(g) && ShutOk(g.s.entries, g.toClose, g.shut) && ThreadsOk(g.s.entries, g.threads)
    requires UniqueOk(g.s.entries) && BoundOk(g.s) && UsedOk(g.s.lru, g.used, g.acquires)
    ensures SysInv(g)
  {
    hide Known, EntriesOk, ShutOk, ThreadsOk, UniqueOk, BoundOk, UsedOk;
  }

  lemma HitEntries(g: System, t: nat, key: Key, g': System)
    requires SysInv(g) && t !in g.threads && !g.s.closing && key in g.s.table
    requires var i := g.s.table[key];
             g'.s.entries == g.s.entries[i := g.s.entries[i].(refs := g.s.entries[i].refs + 1)]
    requires g'.s.closing == g.s.closing && g'.threads == g.threads[t := Waiting(g.s.table[key])]
    ensures EntriesOk(g') && UniqueOk(g'.s.entries)
  {
    hide UsedOk, BoundOk, ThreadsOk, LruOk, ShutOk;
    var i := g.s.table[key];
    forall j | 0 <= j < |g'.s.entries|
      ensures EntryOk(g'.s.entries[j], |On(g'.threads, j)|, g'.s.closing)
    {
      OnAdd(g.threads, t, Waiting(i), j);
      assert EntryOk(g.s.entries[j], |On(g.threads, j)|, g.s.closing);
    }
    forall j, k | 0 <= j < |g'.s.entries| && 0 <= k < |g'.s.entries| && j != k
        && g'.s.entries[j].key == g'.s.entries[k].key
      ensures !(Live(g'.s.entries[j]) && Live(g'.s.entries[k]))
    {
      assert EntryOk(g.s.entries[j], |On(g.threads, j)|, g.s.closing);
      assert EntryOk(g.s.entries[k], |On(g.threads, k)|, g.s.closing);
    }
  }

  /** An entry no request has ever held is on nobody's hands. */
  lemma NobodyOn(g: System, i: nat)
    requires Known(g) && i >= |g.s.entries|
    ensures |On(g.threads, i)| == 0
  {
    assert On(g.threads, i) == {};
  }

  lemma MadeEntries(g: System, t: nat, key: Key, g1: System)
    requires SysInv(g) && t !in g.threads && !g.s.closing && key !in g.s.table
    requires g1.s == MakeEntry(g.s, key) && g1.threads == g.threads[t := Opens(|g.s.entries|)]
    ensures EntriesOk(g1) && UniqueOk(g1.s.entries) && ThreadsOk(g1.s.entries, g1.threads)
  {
    hide SysInv, CacheOk, UniqueOk, ThreadsOk;
    Parts(g);
    var i := |g.s.entries|;
    NobodyOn(g, i);
    forall j | 0 <= j < |g1.s.entries|
      ensures EntryOk(g1.s.entries[j], |On(g1.threads, j)|, g1.s.closing)
    {
      OnAdd(g.threads, t, Opens(i), j);
      if j < i {
        EntryAt(g, j);
      }
    }
    MadeUnique(g, key);
    MadeThreads(g, t, key);
  }

  lemma MadeUnique(g: System, key: Key)
    requires SysInv(g) && !g.s.closing && key !in g.s.table
    ensures UniqueOk(MakeEntry(g.s, key).entries)
  {
    hide UsedOk, BoundOk, LruOk, ShutOk, ThreadsOk;
    var i, es := |g.s.entries|, MakeEntry(g.s, key).entries;
    forall j | 0 <= j < i && g.s.entries[j].key == key
      ensures !Live(g.s.entries[j])
    {
      EntryAt(g, j);
    }
  }

  lemma MadeThreads(g: System, t: nat, key: Key)
    requires SysInv(g) && t !in g.threads
    ensures var threads := g.threads[t := Opens(|g.s.entries|)];
            && (forall u :: u in threads ==> threads[u].entry <= |g.s.entries|)
            && ThreadsOk(MakeEntry(g.s, key).entries, threads)
  {
    hide UsedOk, BoundOk, CacheOk, ShutOk, UniqueOk, EntriesOk;
  }

  /** What an eviction leaves of the entries' parts. */
  lemma EvictKeeps(g: System, t: Reg)
    requires CacheOk(g.s) && EntriesOk(g) && UniqueOk(g.s.entries)
    requires forall u :: u in g.threads ==> g.threads[u].entry < |g.s.entries|
    requires ThreadsOk(g.s.entries, g.threads)
    requires t == Evict(g.s, |g.s.lru|)
    ensures CacheOk(t) && EntriesOk(g.(s := t)) && UniqueOk(t.entries) && ThreadsOk(t.entries, g.threads) && BoundOk(t)
    ensures forall i :: 0 <= i < |g.s.entries| ==> (g.s.entries[i].closed ==> t.entries[i].closed)
  {
    hide Evict, TableOk, Precedes, OldestFirst, On;
    EvictEffect(g.s, |g.s.lru|);
    forall i | 0 <= i < |t.entries|
      ensures EntryOk(t.entries[i], |On(g.threads, i)|, t.closing)
    {
      assert EntryOk(g.s.entries[i], |On(g.threads, i)|, g.s.closing);
    }
    EvictBound(g.s, t);
  }

  lemma EvictBound(s: Reg, t: Reg)
    requires LruOk(s) && LruOk(t) && OnlyIdle(s, |s.lru|, t) && Fits(s, |s.lru|, t) && t.limit == s.limit
    ensures BoundOk(t)
  {
    forall q | 0 <= q < |t.lru| && |t.table| > t.limit
      ensures t.entries[t.lru[q]].refs != 0
    {
      var i := t.lru[q];
      assert t.entries[i] == s.entries[i];
      assert i in s.lru;
    }
  }

  lemma OrderKept(l: seq<nat>, l': seq<nat>, used: seq<nat>, n: nat)
    requires UsedOk(l, used, n) && forall q :: 0 <= q < |l'| ==> l'[q] < |used|
    requires forall i, j :: 0 <= i < j < |l'| ==> Precedes(l, l'[i], l'[j])
    ensures UsedOk(l', used, n)
  {
  }

  lemma MadeInv(g: System, t: nat, key: Key)
    requires SysInv(g) && t !in g.threads && !g.s.closing && key !in g.s.table
    ensures SysInv(Acquire(g, t, key))
  {
    hide Evict, TableOk, EntryOk, UniqueOk, ThreadsOk, BoundOk, Precedes, Evicted, EntriesOk, ShutOk;
    var g' := Acquire(g, t, key);
    var s1 := MakeEntry(g.s, key);
    MadeOk(g.s, key);
    var g1 := g.(s := s1, threads := g.threads[t := Opens(|g.s.entries|)]);
    MadeEntries(g, t, key, g1);
    EvictKeeps(g1, g'.s);
    assert g1.(s := g'.s).threads == g'.threads;
    EntriesAgree(g1.(s := g'.s), g');
    EvictEffect(s1, |s1.lru|);
    var used1 := g.used + [g.acquires];
    assert UsedOk(s1.lru, used1, g.acquires + 1);
    OrderKept(s1.lru, g'.s.lru, used1, g.acquires + 1);
    ShutGrows(g.s.entries, g'.s.entries, g.s, g'.s, g.toClose, g.shut);
  }

  lemma EntriesAgree(g: System, h: System)
    requires EntriesOk(g) && h.s == g.s && h.threads == g.threads
    ensures EntriesOk(h)
  {
  }

  lemma AcquireInv(g: System, t: nat, key: Key)
    requires SysInv(g) && t !in g.threads
    ensures SysInv(Acquire(g, t, key))
  {
    if g.s.closing {
      assert NewlyClosed(g.s, g.s) == {};
    } else if key in g.s.table {
      HitInv(g, t, key);
    } else {
      MadeInv(g, t, key);
    }
  }

  // ---- release ----

  lemma ReleaseInv(g: System, t: nat, g': System)
    requires SysInv(g) && Step(g, Releases(t), g')
    ensures SysInv(g')
  {
    hide Evict, TableOk, EntryOk, UniqueOk, ThreadsOk, BoundOk, Precedes, Evicted, EntriesOk, ShutOk;
    var i := g.threads[t].entry;
    var s1 := Put(g.s, i, g.s.entries[i].(refs := g.s.entries[i].refs - 1));
    ReleaseCache(g.s, i);
    EvictEffect(s1, |s1.lru|);
    ReleaseParts(g, t, g');
    OrderKept(s1.lru, g'.s.lru, g.used, g.acquires);
    ShutGrows(g.s.entries, g'.s.entries, g.s, g'.s, g.toClose, g.shut);
  }

  lemma ReleaseCache(s: Reg, i: nat)
    requires CacheOk(s) && i < |s.entries|
    ensures CacheOk(Put(s, i, s.entries[i].(refs := s.entries[i].refs - 1)))
  {
  }

  /** What a release makes of an entry: one ref less if it is the one released, and out or closed if due. */
  predicate Released(e: Entry, e': Entry, itself: bool) {
    var f := if itself then e.(refs := e.refs - 1) else e;
    || e' == f
    || PutOut(f, e')
    || (itself && f.evicted && f.refs == 0 && !f.closed && e' == f.(closed := true))
  }

  /** The section's last part: the entry itself is marked closed if it is out and free. */
  function Last(s: Reg, i: nat): Reg
    requires i < |s.entries|
  {
    if s.entries[i].evicted && s.entries[i].refs == 0 && !s.entries[i].closed
    then Put(s, i, s.entries[i].(closed := true)) else s
  }

  lemma LastOk(s: Reg, i: nat)
    requires CacheOk(s) && i < |s.entries| && BoundOk(s)
    ensures CacheOk(Last(s, i)) && BoundOk(Last(s, i))
  {
    hide TableOk;
    SameTable(s, Last(s, i));
  }

  lemma ReleaseShape(s: Reg, i: nat)
    requires CacheOk(s) && i < |s.entries|
    ensures var s1 := Put(s, i, s.entries[i].(refs := s.entries[i].refs - 1));
            var t := Release(s, i);
            && CacheOk(s1) && CacheOk(t) && BoundOk(t) && |t.entries| == |s.entries| && t.limit == s.limit
            && t.closing == s.closing
            && t.lru == Evict(s1, |s1.lru|).lru
    ensures forall j :: 0 <= j < |s.entries| ==> Released(s.entries[j], Release(s, i).entries[j], i == j)
    ensures s.entries[i].evicted && s.entries[i].refs == 1 ==> Release(s, i).entries[i].closed
  {
    hide Evict, TableOk, LruOk, OldestFirst, Fits, BoundOk;
    var s1 := Put(s, i, s.entries[i].(refs := s.entries[i].refs - 1));
    ReleaseCache(s, i);
    LruAt(s1);
    EvictEffect(s1, |s1.lru|);
    var s2 := Evict(s1, |s1.lru|);
    EvictBound(s1, s2);
    LastOk(s2, i);
    assert Release(s, i) == Last(s2, i);
  }

  lemma LruAt(s: Reg)
    requires LruOk(s)
    ensures Distinct(s.lru) && forall q :: 0 <= q < |s.lru| ==> s.lru[q] < |s.entries|
  {
  }

  lemma ReleaseParts(g: System, t: nat, g': System)
    requires SysInv(g) && Step(g, Releases(t), g')
    ensures CacheOk(g'.s) && EntriesOk(g') && UniqueOk(g'.s.entries) && BoundOk(g'.s) && |g'.s.entries| == |g.s.entries|
    ensures (forall u :: u in g'.threads ==> g'.threads[u].entry < |g'.s.entries|)
    ensures ThreadsOk(g'.s.entries, g'.threads)
    ensures var i := g.threads[t].entry;
            g'.s.lru == Evict(Put(g.s, i, g.s.entries[i].(refs := g.s.entries[i].refs - 1)), |g.s.lru|).lru
    ensures forall j :: 0 <= j < |g.s.entries| ==> (g.s.entries[j].closed ==> g'.s.entries[j].closed)
  {
    hide SysInv, Evict, UsedOk, ShutOk, Release, CacheOk, LruOk, BoundOk, UniqueOk, ThreadsOk, EntriesOk, On, EntryOk;
    Parts(g);
    KnownParts(g);
    var i := g.threads[t].entry;
    ReleaseShape(g.s, i);
    forall j | 0 <= j < |g'.s.entries|
      ensures EntryOk(g'.s.entries[j], |On(g'.threads, j)|, g'.s.closing)
    {
      OnEnd(g.threads, t, j);
      EntryAt(g, j);
      ReleasedOk(g.s.entries[j], g'.s.entries[j], i == j, |On(g.threads, j)|, g.s.closing);
    }
    EntriesTogether(g');
    UniqueShrinks(g.s.entries, g'.s.entries);
    ThreadsKept(g.s.entries, g'.s.entries, g.threads, g'.threads);
  }

  lemma KnownParts(g: System)
    requires Known(g)
    ensures CacheOk(g.s) && forall t :: t in g.threads ==> g.threads[t].entry < |g.s.entries|
  {
    hide CacheOk;
  }

  lemma ReleasedOk(e: Entry, e': Entry, itself: bool, holders: int, closing: bool)
    requires EntryOk(e, holders, closing) && Released(e, e', itself) && (itself ==> holders > 0)
    requires itself && e.evicted && e.refs == 1 ==> e'.closed
    ensures EntryOk(e', holders - if itself then 1 else 0, closing)
  {
  }

  lemma EntriesTogether(g: System)
    requires forall j :: 0 <= j < |g.s.entries| ==> EntryOk(g.s.entries[j], |On(g.threads, j)|, g.s.closing)
    ensures EntriesOk(g)
  {
  }

  // ---- the open, its failure, ready, close ----

  lemma ThreadMoves(g: System, e: Event, g': System)
    requires SysInv(g) && Step(g, e, g') && (e.OpenEnds? || e.Announces? || e.WaitEnds?)
    ensures SysInv(g')
  {
    hide SysInv, TableOk, LruOk, BoundOk, UsedOk, ShutOk, UniqueOk, ThreadsOk, EntriesOk;
    Parts(g);
    SameTable(g.s, g'.s);
    SameLru(g.s, g'.s);
    SameShut(g.s.entries, g'.s.entries, g.toClose, g.shut);
    ThreadAt(g, e.t);
    UniqueShrinks(g.s.entries, g'.s.entries);
    MovesEntries(g, e, g');
    MovesThreads(g, e, g');
    Whole(g');
  }

  lemma MovesEntries(g: System, e: Event, g': System)
    requires SysInv(g) && Step(g, e, g') && (e.OpenEnds? || e.Announces? || e.WaitEnds?)
    ensures EntriesOk(g')
  {
    hide SysInv, CacheOk;
    ThreadAt(g, e.t);
    forall j | 0 <= j < |g'.s.entries|
      ensures EntryOk(g'.s.entries[j], |On(g'.threads, j)|, g'.s.closing)
    {
      OnStay(g.threads, e.t, g'.threads[e.t], j);
      EntryAt(g, j);
    }
  }

  lemma MovesThreads(g: System, e: Event, g': System)
    requires SysInv(g) && Step(g, e, g') && (e.OpenEnds? || e.Announces? || e.WaitEnds?)
    requires forall t :: t in g'.threads ==> g'.threads[t].entry < |g'.s.entries|
    ensures ThreadsOk(g'.s.entries, g'.threads)
  {
    hide SysInv, CacheOk, EntriesOk, ShutOk, UniqueOk, BoundOk, UsedOk, ThreadsOk;
    Parts(g);
    KnownParts(g);
    ThreadAt(g, e.t);
    EntryAt(g, g.threads[e.t].entry);
    OneThread(g.s.entries, g'.s.entries, g.threads, e.t, g'.threads[e.t], g'.threads);
  }

  /** One thread goes on with its entry, which changes, if it does, by its opener and before it is ready. */
  lemma OneThread(es: seq<Entry>, fs: seq<Entry>, threads: map<nat, Thread>, t: nat, th: Thread,
                  threads': map<nat, Thread>)
    requires (forall u :: u in threads ==> threads[u].entry < |es|) && ThreadsOk(es, threads) && t in threads
    requires threads' == threads[t := th] && th.entry == threads[t].entry && (Opener(th) ==> Opener(threads[t]))
    requires |fs| == |es| && forall i :: 0 <= i < |es| && i != th.entry ==> fs[i] == es[i]
    requires ThreadOk(th, fs[th.entry])
    requires fs[th.entry] == es[th.entry] || (Opener(threads[t]) && !es[th.entry].ready)
    ensures (forall u :: u in threads' ==> threads'[u].entry < |fs|) && ThreadsOk(fs, threads')
  {
    forall u | u in threads'
      ensures ThreadOk(threads'[u], fs[threads'[u].entry])
    {
      if u != t && threads[u].entry == th.entry {
        assert ThreadOk(threads[u], es[th.entry]) && ThreadOk(threads[t], es[th.entry]);
      } else if u != t {
        assert ThreadOk(threads[u], es[threads[u].entry]);
      }
    }
  }

  lemma SameTable(s: Reg, t: Reg)
    requires TableOk(s) && t.table == s.table && |t.entries| == |s.entries|
    requires forall i :: 0 <= i < |s.entries| ==>
              t.entries[i].key == s.entries[i].key && t.entries[i].evicted == s.entries[i].evicted
    ensures TableOk(t)
  {
  }

  lemma SameLru(s: Reg, t: Reg)
    requires LruOk(s) && BoundOk(s) && t.table == s.table && t.lru == s.lru && t.limit == s.limit
    requires |t.entries| == |s.entries|
    requires forall i :: 0 <= i < |s.entries| ==>
              t.entries[i].refs == s.entries[i].refs && t.entries[i].evicted == s.entries[i].evicted
    ensures LruOk(t) && BoundOk(t)
  {
  }

  lemma SameShut(es: seq<Entry>, fs: seq<Entry>, toClose: set<nat>, shut: seq<nat>)
    requires ShutOk(es, toClose, shut) && |fs| == |es|
    requires forall i :: 0 <= i < |es| ==> fs[i].closed == es[i].closed
    ensures ShutOk(fs, toClose, shut)
  {
  }

  lemma UnlistsInv(g: System, t: nat, g': System)
    requires SysInv(g) && Step(g, Unlists(t), g')
    ensures SysInv(g')
  {
    hide SysInv, TableOk, LruOk, UsedOk, ShutOk, UniqueOk, ThreadsOk, EntriesOk, BoundOk, Without;
    Parts(g);
    ThreadAt(g, t);
    UnlistsCache(g.s, g.threads[t].entry, g.used, g.acquires);
    assert NewlyClosed(g.s, g'.s) == {};
    assert g'.toClose == g.toClose;
    SameShut(g.s.entries, g'.s.entries, g.toClose, g.shut);
    UniqueShrinks(g.s.entries, g'.s.entries);
    UnlistsEntries(g, t, g');
    UnlistsThreads(g, t, g');
    Whole(g');
  }

  lemma UnlistsEntries(g: System, t: nat, g': System)
    requires SysInv(g) && Step(g, Unlists(t), g')
    ensures EntriesOk(g')
  {
    hide SysInv, CacheOk, Without;
    ThreadAt(g, t);
    forall j | 0 <= j < |g'.s.entries|
      ensures EntryOk(g'.s.entries[j], |On(g'.threads, j)|, g'.s.closing)
    {
      OnStay(g.threads, t, g'.threads[t], j);
      EntryAt(g, j);
    }
  }

  lemma UnlistsThreads(g: System, t: nat, g': System)
    requires SysInv(g) && Step(g, Unlists(t), g')
    requires forall u :: u in g'.threads ==> g'.threads[u].entry < |g'.s.entries|
    ensures ThreadsOk(g'.s.entries, g'.threads)
  {
    hide TableOk, LruOk, UsedOk, ShutOk, UniqueOk, BoundOk, EntriesOk, Without;
    ThreadAt(g, t);
  }

  lemma UnlistsCache(s: Reg, i: nat, used: seq<nat>, n: nat)
    requires CacheOk(s) && i < |s.entries| && BoundOk(s) && UsedOk(s.lru, used, n)
    ensures CacheOk(Drop(s, i)) && BoundOk(Drop(s, i)) && UsedOk(Drop(s, i).lru, used, n)
  {
    hide TableOk, Without;
    if !s.entries[i].evicted {
      DropOk(s, i, s.entries[i].(evicted := true));
      var t := Drop(s, i);
      assert Put(t, i, s.entries[i].(evicted := true)) == t;
      RemovedOrder(s.lru, Index(s.lru, i), used, n);
      UnlistsBound(s, t, Index(s.lru, i));
    }
  }

  lemma UnlistsBound(s: Reg, t: Reg, p: nat)
    requires LruOk(s) && LruOk(t) && p < |s.lru| && t.lru == Remove(s.lru, p) && BoundOk(s)
    requires |t.table| < |s.table| && t.limit == s.limit && |t.entries| == |s.entries|
    requires forall i :: 0 <= i < |s.entries| ==> t.entries[i].refs == s.entries[i].refs
    ensures BoundOk(t)
  {
  }

  lemma RemovedOrder(lru: seq<nat>, p: nat, used: seq<nat>, n: nat)
    requires UsedOk(lru, used, n) && p < |lru|
    ensures UsedOk(Remove(lru, p), used, n)
  {
    var r := Remove(lru, p);
    forall q, u | 0 <= q < u < |r|
      ensures used[r[q]] > used[r[u]]
    {
      assert r[q] == lru[if q < p then q else q + 1] && r[u] == lru[if u < p then u else u + 1];
    }
  }

  lemma ClosesInv(g: System, g': System)
    requires SysInv(g) && Step(g, Closes, g')
    ensures SysInv(g')
  {
    hide SysInv, EntriesOk, ShutOk, UniqueOk, ThreadsOk, UsedOk, BoundOk, TableOk, LruOk, On, EntryOk;
    Parts(g);
    forall j | 0 <= j < |g'.s.entries|
      ensures EntryOk(g'.s.entries[j], |On(g'.threads, j)|, g'.s.closing)
    {
      EntryAt(g, j);
      GoneOk(g.s.entries[j], |On(g.threads, j)|, g.s.closing);
    }
    EntriesTogether(g');
    EmptyCache(g'.s, g.used, g.acquires, g.s.lru);
    ShutGrows(g.s.entries, g'.s.entries, g.s, g'.s, g.toClose, g.shut);
    UniqueShrinks(g.s.entries, g'.s.entries);
    ThreadsKept(g.s.entries, g'.s.entries, g.threads, g'.threads);
    Whole(g');
  }

  lemma GoneOk(e: Entry, holders: int, closing: bool)
    requires EntryOk(e, holders, closing)
    ensures EntryOk(if e.evicted then e else Gone(e), holders, true)
  {
  }

  lemma EmptyCache(s: Reg, used: seq<nat>, n: nat, lru: seq<nat>)
    requires s.table == map[] && s.lru == [] && UsedOk(lru, used, n)
    requires forall i :: 0 <= i < |s.entries| ==> s.entries[i].evicted
    ensures TableOk(s) && LruOk(s) && BoundOk(s) && UsedOk(s.lru, used, n)
  {
  }

  lemma ShutsInv(g: System, i: nat, g': System)
    requires SysInv(g) && Step(g, Shuts(i), g')
    ensures SysInv(g')
  {
    hide CacheOk, EntryOk, ThreadsOk, UniqueOk, BoundOk, UsedOk;
    forall j: nat
      ensures j in g'.toClose || j in g'.shut <==> j < |g'.s.entries| && g'.s.entries[j].closed
    {
      assert j in g.toClose || j in g.shut <==> j < |g.s.entries| && g.s.entries[j].closed;
    }
  }

  lemma StepInv(g: System, e: Event, g': System)
    requires SysInv(g) && Step(g, e, g')
    ensures SysInv(g')
  {
    hide SysInv, Acquire;
    match e {
      case Acquires(t, key) => AcquireInv(g, t, key);
      case Unlists(t) => UnlistsInv(g, t, g');
      case Releases(t) => ReleaseInv(g, t, g');
      case Closes => ClosesInv(g, g');
      case Shuts(i) => ShutsInv(g, i, g');
      case _ => ThreadMoves(g, e, g');
    }
  }

  lemma {:induction false} RunInv(states: seq<System>, events: seq<Event>, i: nat)
    requires IsRun(states, events) && Start0(states[0]) && i < |states|
    ensures SysInv(states[i])
  {
    hide SysInv, Step;
    if i == 0 {
      StartInv(states[0]);
    } else {
      RunInv(states, events, i - 1);
      assert Step(states[i - 1], events[i - 1], states[i - 1 + 1]);
      StepInv(states[i - 1], events[i - 1], states[i]);
    }
  }

  lemma StartInv(g: System)
    requires Start0(g)
    ensures SysInv(g)
  {
  }
}
