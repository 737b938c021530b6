/** What holds of the registry in every interleaving of its requests. */
module RegistryTheorems {
  import opened Common
  import opened RegistryState
  import opened RegistrySystem

  ghost predicate Reachable(g: System) {
    exists states: seq<System>, events: seq<Event> ::
      IsRun(states, events) && Start0(states[0]) && states[|states| - 1] == g
  }

  lemma ReachableInv(g: System)
    requires Reachable(g)
    ensures SysInv(g)
  {
    hide SysInv;
    var states: seq<System>, events: seq<Event> :|
      IsRun(states, events) && Start0(states[0]) && states[|states| - 1] == g;
    RunInv(states, events, |states| - 1);
  }

  /**
   Whoever holds an entry, waits on it, opens it or is about to release it has
   it open: it is not closed, and no section has left it to be closed.
   */
  lemma NeverClosedWhileHeld(g: System, t: nat)
    requires Reachable(g) && t in g.threads
    ensures g.threads[t].entry !in g.toClose && g.threads[t].entry !in g.shut
  {
    hide Reachable, SysInv;
    ReachableInv(g);
    ThreadAt(g, t);
    EntryAt(g, g.threads[t].entry);
    Parts(g);
  }

  /** A step never takes back the close of an entry. */
  lemma ShutStays(g: System, e: Event, g': System, i: nat)
    requires Step(g, e, g') && i in g.shut
    ensures i in g'.shut
  {
  }

  lemma {:induction false} ShutForever(states: seq<System>, events: seq<Event>, a: nat, b: nat, i: nat)
    requires IsRun(states, events) && a <= b < |states| && i in states[a].shut
    ensures i in states[b].shut
    decreases b - a
  {
    if a < b {
      assert Step(states[a], events[a], states[a + 1]);
      ShutStays(states[a], events[a], states[a + 1], i);
      ShutForever(states, events, a + 1, b, i);
    }
  }

  /** No run closes an entry twice. */
  lemma ClosedAtMostOnce(states: seq<System>, events: seq<Event>, a: nat, b: nat, i: nat)
    requires IsRun(states, events) && Start0(states[0]) && a < b < |events| && events[a] == Shuts(i)
    ensures events[b] != Shuts(i)
  {
    hide SysInv, Step;
    assert Step(states[a], events[a], states[a + 1]);
    ShutNow(states[a], i, states[a + 1]);
    ShutForever(states, events, a + 1, b, i);
    RunInv(states, events, b);
    Parts(states[b]);
    assert Step(states[b], events[b], states[b + 1]);
    NotAgain(states[b], events[b], states[b + 1], i);
  }

  lemma ShutNow(g: System, i: nat, g': System)
    requires Step(g, Shuts(i), g')
    ensures i in g'.shut
  {
    assert g'.shut[|g.shut|] == i;
  }

  lemma NotAgain(g: System, e: Event, g': System, i: nat)
    requires Step(g, e, g') && i in g.shut && ShutOk(g.s.entries, g.toClose, g.shut)
    ensures e != Shuts(i)
  {
  }

  /**
   After close, an entry nobody is on any more is closed or left to its last
   releaser to close; then it is closed, once.
   */
  lemma ClosedAfterClose(g: System, i: nat)
    requires Reachable(g) && g.s.closing && i < |g.s.entries| && forall t :: t in g.threads ==> g.threads[t].entry != i
    ensures i in g.toClose || i in g.shut
    ensures i in g.shut ==> multiset(g.shut)[i] == 1
  {
    hide Reachable, SysInv;
    ReachableInv(g);
    EntryAt(g, i);
    assert On(g.threads, i) == {};
    Parts(g);
    if i in g.shut {
      Once(g.shut, i);
    }
  }

  lemma {:induction false} Once(s: seq<nat>, i: nat)
    requires Distinct(s) && i in s
    ensures multiset(s)[i] == 1
  {
    var p := Index(s, i);
    assert s == s[..p] + [i] + s[p + 1..];
    assert i !in s[..p] && i !in s[p + 1..];
  }

  /** Out of the cache and on nobody's hands is closed: nothing stays open for nobody. */
  lemma EvictedIsClosed(g: System, i: nat)
    requires Reachable(g) && i < |g.s.entries|
    ensures (i in g.toClose || i in g.shut) <==>
            (g.s.entries[i].key !in g.s.table || g.s.table[g.s.entries[i].key] != i) && On(g.threads, i) == {}
  {
    hide Reachable, SysInv;
    ReachableInv(g);
    EntryAt(g, i);
    Parts(g);
  }

  /** Two requests that hold a store of one user hold the same entry, and so share its write lock. */
  lemma OneStorePerUser(g: System, t: nat, u: nat)
    requires Reachable(g) && t in g.threads && u in g.threads && g.threads[t].Holding? && g.threads[u].Holding?
    requires g.threads[t].entry < |g.s.entries| && g.threads[u].entry < |g.s.entries|
    requires g.s.entries[g.threads[t].entry].key == g.s.entries[g.threads[u].entry].key
    ensures g.threads[t].entry == g.threads[u].entry
  {
    hide Reachable, SysInv;
    ReachableInv(g);
    ThreadAt(g, t);
    ThreadAt(g, u);
    Parts(g);
  }

  /** The request's wait may end now, and then it holds the entry. */
  ghost predicate Returns(g: System, u: nat, i: nat) {
    Known(g) && Enabled(g, WaitEnds(u, false)) && Apply(g, WaitEnds(u, false)).threads == g.threads[u := Holding(i)]
  }

  /**
   While a request holds an open store, an acquire of that user is refused,
   the registry closing, or joins the same entry, which is ready: it returns
   it without opening anything.
   */
  lemma SharedWhileHeld(g: System, t: nat, u: nat, g': System)
    requires Reachable(g) && t in g.threads && g.threads[t].Holding? && g.threads[t].entry < |g.s.entries|
    requires Step(g, Acquires(u, g.s.entries[g.threads[t].entry].key), g')
    ensures g.s.closing ==> g'.threads == g.threads
    ensures !g.s.closing ==>
              && g'.threads == g.threads[u := Waiting(g.threads[t].entry)]
              && Returns(g', u, g.threads[t].entry)
  {
    hide Reachable, SysInv, Without, LruOk, EntriesOk, ShutOk, ThreadsOk, UniqueOk, BoundOk, UsedOk, Evict;
    ReachableInv(g);
    ThreadAt(g, t);
    Parts(g);
    HeldIsCached(g, t);
    StepInv(g, Acquires(u, g.s.entries[g.threads[t].entry].key), g');
    Parts(g');
  }

  lemma HeldIsCached(g: System, t: nat)
    requires SysInv(g) && t in g.threads && g.threads[t].Holding? && g.threads[t].entry < |g.s.entries|
    ensures g.s.closing ||
            var i := g.threads[t].entry; g.s.entries[i].key in g.s.table && g.s.table[g.s.entries[i].key] == i
  {
    hide SysInv, LruOk, EntriesOk, ShutOk, ThreadsOk, UniqueOk, BoundOk, UsedOk;
    ThreadAt(g, t);
    EntryAt(g, g.threads[t].entry);
    Parts(g);
  }

  /** The cache holds at most its limit, or every cached entry is held. */
  lemma CacheBound(g: System)
    requires Reachable(g)
    ensures |g.s.table| <= g.s.limit
            || forall k :: k in g.s.table ==> On(g.threads, g.s.table[k]) != {}
  {
    hide Reachable, SysInv;
    ReachableInv(g);
    Parts(g);
    if |g.s.table| > g.s.limit {
      forall k | k in g.s.table
        ensures On(g.threads, g.s.table[k]) != {}
      {
        var i := g.s.table[k];
        EntryAt(g, i);
        assert i in g.s.lru;
        var q :| 0 <= q < |g.s.lru| && g.s.lru[q] == i;
        assert g.s.entries[g.s.lru[q]].refs != 0;
      }
    }
  }

  /** An entry the step takes out of the cache with nobody on it. */
  ghost predicate PutsOutIdle(g: System, g': System, i: nat) {
    && i < |g.s.entries| && |g.s.entries| <= |g'.s.entries|
    && !g.s.entries[i].evicted && g'.s.entries[i].evicted && g'.s.entries[i].refs == 0
  }

  ghost predicate Idle(s: Reg, j: nat) {
    j < |s.entries| && !s.entries[j].evicted && s.entries[j].refs == 0
  }

  /** No idle entry stays cached that was acquired less recently than one the same step put out. */
  lemma LeastRecentFirst(g: System, e: Event, g': System, i: nat, j: nat)
    requires Reachable(g) && Step(g, e, g') && PutsOutIdle(g, g', i) && Idle(g'.s, j)
    ensures j < |g.used| && i < |g.used| && g.used[j] > g.used[i]
  {
    hide Reachable, SysInv, PutsOutIdle, Idle, Step;
    ReachableInv(g);
    if e.Acquires? {
      MakesOldest(g, e.t, e.key, g', i, j);
    } else if e.Releases? {
      ReleaseOldest(g, e.t, g', i, j);
    } else if e.Unlists? {
      UnlistsHeld(g, e.t, g', i);
    } else {
      NoneIdleOut(g, e, g', i, j);
    }
  }

  lemma NoneIdleOut(g: System, e: Event, g': System, i: nat, j: nat)
    requires Step(g, e, g') && !e.Acquires? && !e.Releases? && !e.Unlists?
    ensures !(PutsOutIdle(g, g', i) && Idle(g'.s, j))
  {
    hide TableOk, LruOk;
  }

  lemma UnlistsHeld(g: System, t: nat, g': System, i: nat)
    requires SysInv(g) && Step(g, Unlists(t), g')
    ensures !PutsOutIdle(g, g', i)
  {
    hide SysInv, TableOk, LruOk, Without;
    Parts(g);
    ThreadAt(g, t);
  }

  lemma OldestOut(s: Reg, t: Reg, used: seq<nat>, n: nat, i: nat, j: nat)
    requires LruOk(s) && Evicted(s, |s.lru|, t) && |used| == |s.entries| && UsedOk(s.lru, used, n)
    requires i < |s.entries| && !s.entries[i].evicted && t.entries[i].evicted
    requires Idle(t, j)
    ensures used[j] > used[i]
  {
    assert t.entries[j] == s.entries[j];
    var q, r := Index(s.lru, i), Index(s.lru, j);
    assert !(q < r);
  }

  lemma MakesOldest(g: System, t: nat, key: Key, g': System, i: nat, j: nat)
    requires SysInv(g) && Step(g, Acquires(t, key), g') && PutsOutIdle(g, g', i) && Idle(g'.s, j)
    ensures j < |g.used| && i < |g.used| && g.used[j] > g.used[i]
  {
    hide SysInv, Evict, Without, TableOk, OldestFirst, Fits, UsedOk, LruOk, Precedes;
    Parts(g);
    if !g.s.closing && key !in g.s.table {
      var s1 := MakeEntry(g.s, key);
      MadeOk(g.s, key);
      LruAt(s1);
      EvictEffect(s1, |s1.lru|);
      MadeOrder(g);
      OldestOut(s1, g'.s, g.used + [g.acquires], g.acquires + 1, i, j);
    }
  }

  lemma MadeOrder(g: System)
    requires Known(g) && UsedOk(g.s.lru, g.used, g.acquires)
    ensures UsedOk([|g.s.entries|] + g.s.lru, g.used + [g.acquires], g.acquires + 1)
  {
  }

  lemma ReleaseOldest(g: System, t: nat, g': System, i: nat, j: nat)
    requires SysInv(g) && Step(g, Releases(t), g') && PutsOutIdle(g, g', i) && Idle(g'.s, j)
    ensures j < |g.used| && i < |g.used| && g.used[j] > g.used[i]
  {
    hide SysInv, Evict, TableOk, OldestFirst, Fits, UsedOk, LruOk, Precedes, BoundOk, ShutOk, ThreadsOk, UniqueOk;
    hide EntriesOk;
    Parts(g);
    var k := g.threads[t].entry;
    var s1 := Put(g.s, k, g.s.entries[k].(refs := g.s.entries[k].refs - 1));
    ReleaseCache(g.s, k);
    LruAt(s1);
    EvictEffect(s1, |s1.lru|);
    OldestOut(s1, Evict(s1, |s1.lru|), g.used, g.acquires, i, j);
  }

  /**
   An acquire is refused exactly once the registry closes; until then it joins
   the cached entry of its user, or makes one, which it opens and which is
   cached.
   */
  lemma AcquireAnswers(g: System, t: nat, key: Key, g': System)
    requires Step(g, Acquires(t, key), g')
    ensures g.s.closing ==> g' == g
    ensures !g.s.closing && key in g.s.table ==>
              && g'.threads == g.threads[t := Waiting(g.s.table[key])]
              && g'.s.table == g.s.table && g'.toClose == g.toClose
    ensures !g.s.closing && key !in g.s.table ==>
              var i := |g.s.entries|;
              && g'.threads == g.threads[t := Opens(i)] && |g'.s.entries| == i + 1
              && key in g'.s.table && g'.s.table[key] == i
              && g'.s.entries[i] == Entry(key, Opening, false, 1, false, false)
  {
    hide Evict, Without, TableOk, LruOk, MakeEntry;
    if !g.s.closing && key !in g.s.table {
      MadeStays(g.s, key);
    } else {
      NoneClosed(g, t, key, g');
    }
  }

  /** The entry just made is held, and so outlives the eviction it brings about. */
  lemma MadeStays(s: Reg, key: Key)
    requires CacheOk(s) && key !in s.table
    ensures var s1 := MakeEntry(s, key);
            var i := |s.entries|;
            && CacheOk(s1)
            && var r := Evict(s1, |s1.lru|);
            && |r.entries| == i + 1 && r.entries[i] == Entry(key, Opening, false, 1, false, false)
            && key in r.table && r.table[key] == i
  {
    hide Evict, LruOk, OldestFirst, Fits, Precedes;
    var s1 := MakeEntry(s, key);
    MadeOk(s, key);
    EvictEffect(s1, |s1.lru|);
  }

  lemma NoneClosed(g: System, t: nat, key: Key, g': System)
    requires Step(g, Acquires(t, key), g') && (g.s.closing || key in g.s.table)
    ensures NewlyClosed(g.s, g'.s) == {} && g.toClose + {} == g.toClose
  {
    hide LruOk, Without;
    var t' := Take(g.s, key).0;
    assert g'.s == t';
    forall i | 0 <= i < |t'.entries|
      ensures i < |g.s.entries| && t'.entries[i].closed == g.s.entries[i].closed
    {
    }
  }

  lemma ClosingStep(g: System, e: Event, g': System)
    requires SysInv(g) && Step(g, e, g') && (g.s.closing || e.Closes?)
    ensures g'.s.closing
  {
    hide SysInv, Evict, Without, TableOk, LruOk, Precedes, OldestFirst, Fits, OnlyIdle;
    Parts(g);
    if e.Releases? {
      var k := g.threads[e.t].entry;
      var s1 := Put(g.s, k, g.s.entries[k].(refs := g.s.entries[k].refs - 1));
      ReleaseCache(g.s, k);
      LruAt(s1);
      EvictEffect(s1, |s1.lru|);
    }
  }

  /** After close nothing is cached, and every acquire is refused, for good. */
  lemma {:induction false} ClosedForGood(states: seq<System>, events: seq<Event>, a: nat, b: nat)
    requires IsRun(states, events) && Start0(states[0]) && a < b < |states| && events[a].Closes?
    ensures states[b].s.closing && states[b].s.table == map[]
    ensures b < |events| && events[b].Acquires? ==> states[b + 1] == states[b]
    decreases b - a
  {
    hide SysInv, Step, Start0;
    assert Step(states[b - 1], events[b - 1], states[b - 1 + 1]);
    if b > a + 1 {
      ClosedForGood(states, events, a, b - 1);
    }
    RunInv(states, events, b - 1);
    RunInv(states, events, b);
    ClosingStep(states[b - 1], events[b - 1], states[b]);
    NothingCached(states[b]);
    if b < |events| && events[b].Acquires? {
      assert Step(states[b], events[b], states[b + 1]);
      NowRefused(states[b], events[b], states[b + 1]);
    }
  }

  lemma NothingCached(g: System)
    requires SysInv(g) && g.s.closing
    ensures g.s.table == map[]
  {
    hide SysInv, LruOk;
    Parts(g);
    forall k | k in g.s.table
      ensures false
    {
      EntryAt(g, g.s.table[k]);
    }
    assert g.s.table.Keys == {};
  }

  lemma NowRefused(g: System, e: Event, g': System)
    requires Step(g, e, g') && g.s.closing && e.Acquires?
    ensures g' == g
  {
    hide TableOk, LruOk;
    NoneClosed(g, e.t, e.key, g');
  }
}
