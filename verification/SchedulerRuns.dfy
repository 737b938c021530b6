/** The invariant of every run of the scheduler, event by event. */
module SchedulerRuns {
  import opened Common
  import opened SchedulerState
  import opened SchedulerInvariant
  import opened SchedulerSystem
  import opened SchedulerEffects

  // ---- the parts of SysInv under the effects of a section ----

  lemma JobsFrame(es: seq<User>, fs: seq<User>, workers: seq<Worker>)
    requires JobsOk(es, workers) && SameJobs(es, fs)
    ensures JobsOk(fs, workers)
  {
  }

  lemma WaitersFrame(es: seq<User>, fs: seq<User>, waiters: map<nat, Waiter>)
    requires WaitersOk(es, waiters) && SameWaits(es, fs)
    ensures WaitersOk(fs, waiters)
  {
    forall i | |es| <= i < |fs|
      ensures WaitersOn(waiters, i) == {}
    {
    }
  }

  lemma HoldersFrame(es: seq<User>, fs: seq<User>, holders: map<nat, nat>)
    requires HoldersOk(es, holders) && SameHolds(es, fs)
    ensures HoldersOk(fs, holders)
  {
    forall i | |es| <= i < |fs|
      ensures HoldersOf(holders, i) == {}
    {
    }
  }

  lemma SleepFrame(s: Sched, t: Sched, clock: Time, due: Option<Time>)
    requires Indexed(s) && Indexed(t) && Quiet(s, t, clock) && MaySleep(s, clock, due)
    ensures MaySleep(t, clock, due)
  {
  }

  lemma SleepersFrame(g: System, t: Sched)
    requires Indexed(g.s) && SleepersOk(g) && ChannelBounds(g) && Smooth(g.s, t, g.clock)
    ensures SleepersOk(Become(g, t))
  {
    if t.changed == g.s.changed {
      forall w | 0 <= w < |g.workers| && Sleeping(g.workers[w]) && g.workers[w].ch == t.changed
        ensures MaySleep(t, g.clock, g.workers[w].due)
      {
        SleepFrame(g.s, t, g.clock, g.workers[w].due);
      }
    } else {
      forall w | 0 <= w < |g.workers| && Sleeping(g.workers[w])
        ensures g.workers[w].ch != t.changed
      {
        assert HasTaken(g.workers[w]);
      }
    }
  }

  lemma WaitingFrame(s: Sched, t: Sched, waiters: map<nat, Waiter>)
    requires forall w :: w in waiters ==> waiters[w].entry < |s.entries| <= |t.entries| && waiters[w].ch <= s.changed
    requires WaitingOk(s, waiters) && (t.changed == s.changed + 1 || (t.changed == s.changed && Calm(s, t)))
    ensures WaitingOk(t, waiters)
  {
  }

  /** What a section's own caller does not change: channels, sleepers, timers and the waiters that stay. */
  ghost predicate OthersOk(g: System) {
    && Inv(g.s) && Indexed(g.s)
    && (forall w :: w in g.waiters ==> g.waiters[w].entry < |g.s.entries|)
    && ChannelsOk(g.s.changed, g.closing, g.closed)
    && ChannelBounds(g) && SleepersOk(g) && TimersOk(g.workers) && WaitingOk(g.s, g.waiters)
  }

  lemma SectionOthers(g: System, t: Sched)
    requires OthersOk(g) && Inv(t) && Smooth(g.s, t, g.clock)
    ensures OthersOk(Become(g, t))
  {
    hide Inv, MaySleep, Quiet, Calm, KeepsWaiting;
    SleepersFrame(g, t);
    WaitingFrame(g.s, t, g.waiters);
  }

  lemma SysOthers(g: System)
    requires SysInv(g)
    ensures OthersOk(g)
  {
    hide Inv;
  }

  ghost predicate StartedOk(g: System) {
    !g.s.started ==> forall w :: 0 <= w < |g.workers| ==> g.workers[w].Off?
  }

  lemma Together(g: System)
    requires OthersOk(g) && StartedOk(g)
    requires JobsOk(g.s.entries, g.workers) && WaitersOk(g.s.entries, g.waiters) && HoldersOk(g.s.entries, g.holders)
    ensures SysInv(g)
  {
    hide Inv;
  }

  /** A section that neither starts nor ends a job, a wait or a hold. */
  lemma SectionInv(g: System, t: Sched)
    requires SysInv(g) && Inv(t) && Smooth(g.s, t, g.clock) && SameAll(g.s.entries, t.entries)
    requires t.started == g.s.started || StartedOk(Become(g, t))
    ensures SysInv(Become(g, t))
  {
    hide Inv, Smooth, OthersOk;
    SysOthers(g);
    SectionOthers(g, t);
    JobsFrame(g.s.entries, t.entries, g.workers);
    WaitersFrame(g.s.entries, t.entries, g.waiters);
    HoldersFrame(g.s.entries, t.entries, g.holders);
    Together(Become(g, t));
  }

  // ---- the waits ----

  lemma WaiterJoins(ws: map<nat, Waiter>, w: nat, x: Waiter, i: nat)
    requires w !in ws
    ensures |WaitersOn(ws[w := x], i)| == |WaitersOn(ws, i)| + (if x.entry == i then 1 else 0)
  {
    assert WaitersOn(ws[w := x], i) == WaitersOn(ws, i) + (if x.entry == i then {w} else {});
    assert w !in WaitersOn(ws, i);
  }

  lemma WaiterLeaves(ws: map<nat, Waiter>, w: nat, i: nat)
    requires w in ws
    ensures |WaitersOn(ws - {w}, i)| == |WaitersOn(ws, i)| - (if ws[w].entry == i then 1 else 0)
  {
    assert WaitersOn(ws - {w}, i) == WaitersOn(ws, i) - (if ws[w].entry == i then {w} else {});
    assert ws[w].entry == i ==> w in WaitersOn(ws, i);
  }

  /** The waiter w goes (back) to sleep on the current channel, or is gone. */
  lemma WaiterOthers(g: System, w: nat, x: Waiter)
    requires OthersOk(g)
    requires x.entry < |g.s.entries| && x.ch == g.s.changed
    requires KeepsWaiting(g.s, x.entry, x.limit) && !g.s.entries[x.entry].phase.Idle?
    ensures OthersOk(g.(waiters := g.waiters[w := x]))
  {
    hide Inv, MaySleep;
  }

  lemma WaiterGone(g: System, w: nat)
    requires OthersOk(g)
    ensures OthersOk(g.(waiters := g.waiters - {w}))
  {
    hide Inv, MaySleep;
  }

  lemma WaiterCount(g: System, w: nat)
    requires WaitersOk(g.s.entries, g.waiters) && w in g.waiters
    ensures g.s.entries[g.waiters[w].entry].waiters > 0
  {
    assert w in WaitersOn(g.waiters, g.waiters[w].entry);
  }

  lemma JoinCounts(es: seq<User>, ws: map<nat, Waiter>, w: nat, x: Waiter)
    requires WaitersOk(es, ws) && w !in ws && x.entry < |es|
    ensures WaitersOk(es[x.entry := es[x.entry].(waiters := es[x.entry].waiters + 1)], ws[w := x])
  {
    forall i | 0 <= i < |es|
      ensures |WaitersOn(ws[w := x], i)| == |WaitersOn(ws, i)| + (if x.entry == i then 1 else 0)
    {
      WaiterJoins(ws, w, x, i);
    }
  }

  lemma LeaveCounts(es: seq<User>, ws: map<nat, Waiter>, w: nat)
    requires WaitersOk(es, ws) && w in ws
    ensures WaitersOk(OneLess(es, ws[w].entry), ws - {w})
  {
    forall i | 0 <= i < |es|
      ensures |WaitersOn(ws - {w}, i)| == |WaitersOn(ws, i)| - (if ws[w].entry == i then 1 else 0)
    {
      WaiterLeaves(ws, w, i);
    }
  }

  lemma StayCounts(es: seq<User>, ws: map<nat, Waiter>, w: nat, x: Waiter)
    requires WaitersOk(es, ws) && w in ws && x.entry == ws[w].entry
    ensures WaitersOk(es, ws[w := x])
  {
    forall i: nat
      ensures WaitersOn(ws[w := x], i) == WaitersOn(ws, i)
    {
    }
  }

  /** A WaitBacklog's section: g1 is g with the waiter counted in, before the loop's body runs. */
  lemma LoopInv(g: System, g1: System, w: nat, i: nat, limit: int, now: Time)
    requires SysInv(g) && OthersOk(g1) && g1 == g.(s := g1.s)
    requires SameJobs(g.s.entries, g1.s.entries) && SameHolds(g.s.entries, g1.s.entries)
    requires g1.s.changed == g.s.changed && g1.s.started == g.s.started
    requires i < |g1.s.entries| && g1.s.entries[i].waiters > 0
    requires forall x: Waiter :: x.entry == i ==> WaitersOk(g1.s.entries, g.waiters[w := x])
    requires WaitersOk(OneLess(g1.s.entries, i), g.waiters - {w})
    ensures SysInv(AfterLoop(g, w, i, limit, now, WaitLoop(g1.s, i, limit, now)))
  {
    hide Inv, Smooth, OthersOk, WaitLoop, WaitersOk, JobsOk, HoldersOk, SameJobs, SameHolds, SameWaits;
    OthersParts(g1);
    WaitLoopInv(g1.s, i, limit, now);
    WaitLoopEffect(g1.s, i, limit, now, g1.clock);
    var (t, next) := WaitLoop(g1.s, i, limit, now);
    SectionOthers(g1, t);
    SameTrans(g.s.entries, g1.s.entries, t.entries);
    JobsFrame(g.s.entries, t.entries, g.workers);
    HoldersFrame(g.s.entries, t.entries, g.holders);
    WaitLoopStarted(g1.s, i, limit, now);
    var g' := AfterLoop(g, w, i, limit, now, (t, next));
    match next {
      case Return =>
        WaiterGone(Become(g1, t), w);
        WaitersFrame(OneLess(g1.s.entries, i), t.entries, g.waiters - {w});
        assert g' == Become(g1, t).(waiters := g.waiters - {w});
      case Sleep(ch) =>
        SameLength(g1.s.entries, t.entries);
        WaiterOthers(Become(g1, t), w, Waiter(i, limit, now, ch));
        WaitersFrame(g1.s.entries, t.entries, g.waiters[w := Waiter(i, limit, now, ch)]);
        assert g' == Become(g1, t).(waiters := g.waiters[w := Waiter(i, limit, now, ch)]);
    }
    Together(g');
  }

  lemma OthersParts(g: System)
    requires OthersOk(g)
    ensures Inv(g.s)
  {
  }

  lemma SameLength(es: seq<User>, fs: seq<User>)
    requires SameJobs(es, fs)
    ensures |es| <= |fs|
  {
  }

  lemma SameTrans(es: seq<User>, fs: seq<User>, hs: seq<User>)
    requires SameJobs(es, fs) && SameJobs(fs, hs) && SameHolds(es, fs) && SameHolds(fs, hs)
    ensures SameJobs(es, hs) && SameHolds(es, hs)
  {
  }

  lemma WaitLoopStarted(s: Sched, i: nat, limit: int, now: Time)
    requires i < |s.entries|
    ensures WaitLoop(s, i, limit, now).0.started == s.started
  {
  }

  lemma WaitsInv(g: System, w: nat, key: Key, limit: int, now: Time)
    requires SysInv(g) && w !in g.waiters && key in g.s.users && g.s.users[key] < |g.s.entries|
    ensures var i := g.s.users[key];
            SysInv(AfterLoop(g, w, i, limit, now, WaitLoop(EnterWait(g.s, i), i, limit, now)))
  {
    hide Inv, OthersOk, JobsOk, HoldersOk, SameJobs, SameHolds, WaitLoop, AfterLoop;
    var i := g.s.users[key];
    var s1 := EnterWait(g.s, i);
    var g1 := g.(s := s1);
    EnterOthers(g, key);
    EnterCounts(g, w, i);
    assert g.waiters - {w} == g.waiters;
    assert OneLess(s1.entries, i) == g.s.entries;
    LoopInv(g, g1, w, i, limit, now);
  }

  lemma EnterCounts(g: System, w: nat, i: nat)
    requires SysInv(g) && w !in g.waiters && i < |g.s.entries|
    ensures EnterWait(g.s, i).entries[i].waiters > 0
    ensures forall x: Waiter :: x.entry == i ==> WaitersOk(EnterWait(g.s, i).entries, g.waiters[w := x])
  {
    EntryInv(g.s, i);
    hide Inv;
    forall x: Waiter | x.entry == i
      ensures WaitersOk(EnterWait(g.s, i).entries, g.waiters[w := x])
    {
      JoinCounts(g.s.entries, g.waiters, w, x);
    }
  }

  lemma EnterOthers(g: System, key: Key)
    requires SysInv(g) && key in g.s.users && g.s.users[key] < |g.s.entries|
    ensures var s1 := EnterWait(g.s, g.s.users[key]);
            && OthersOk(g.(s := s1)) && SameJobs(g.s.entries, s1.entries) && SameHolds(g.s.entries, s1.entries)
            && s1.changed == g.s.changed
  {
    hide Inv, OthersOk;
    var i := g.s.users[key];
    SysOthers(g);
    EnterWaitInv(g.s, key);
    EnterWaitEffect(g.s, i, g.clock);
    SectionOthers(g, EnterWait(g.s, i));
    assert Become(g, EnterWait(g.s, i)) == g.(s := EnterWait(g.s, i));
  }

  lemma WaiterWakesInv(g: System, w: nat, gone: bool)
    requires SysInv(g) && WellFormed(g) && Enabled(g, WaiterWakes(w, gone))
    ensures SysInv(Apply(g, WaiterWakes(w, gone)))
  {
    var x := g.waiters[w];
    WaiterCount(g, w);
    LeaveCounts(g.s.entries, g.waiters, w);
    SysOthers(g);
    if gone {
      GoneInv(g, w);
    } else {
      forall y: Waiter | y.entry == x.entry
        ensures WaitersOk(g.s.entries, g.waiters[w := y])
      {
        StayCounts(g.s.entries, g.waiters, w, y);
      }
      LoopInv(g, g, w, x.entry, x.limit, x.now);
    }
  }

  lemma GoneInv(g: System, w: nat)
    requires SysInv(g) && w in g.waiters && g.waiters[w].entry < |g.s.entries|
    requires g.s.entries[g.waiters[w].entry].waiters > 0
    requires WaitersOk(OneLess(g.s.entries, g.waiters[w].entry), g.waiters - {w})
    ensures SysInv(g.(s := LeaveWait(g.s, g.waiters[w].entry), waiters := g.waiters - {w}))
  {
    hide Inv, OthersOk, Smooth;
    var i := g.waiters[w].entry;
    SysOthers(g);
    LeaveWaitInv(g.s, i);
    LeaveWaitEffect(g.s, i, g.clock);
    var t := LeaveWait(g.s, i);
    SectionOthers(g, t);
    WaiterGone(Become(g, t), w);
    WaitersFrame(OneLess(g.s.entries, i), t.entries, g.waiters - {w});
    JobsFrame(g.s.entries, t.entries, g.workers);
    HoldersFrame(g.s.entries, t.entries, g.holders);
    assert Become(g, t).(waiters := g.waiters - {w}) == g.(s := t, waiters := g.waiters - {w});
    Together(g.(s := t, waiters := g.waiters - {w}));
  }

  // ---- the holds ----

  lemma HolderJoins(hs: map<nat, nat>, h: nat, e: nat, i: nat)
    requires h !in hs
    ensures |HoldersOf(hs[h := e], i)| == |HoldersOf(hs, i)| + (if e == i then 1 else 0)
  {
    assert HoldersOf(hs[h := e], i) == HoldersOf(hs, i) + (if e == i then {h} else {});
    assert h !in HoldersOf(hs, i);
  }

  lemma HolderLeaves(hs: map<nat, nat>, h: nat, i: nat)
    requires h in hs
    ensures |HoldersOf(hs - {h}, i)| == |HoldersOf(hs, i)| - (if hs[h] == i then 1 else 0)
  {
    assert HoldersOf(hs - {h}, i) == HoldersOf(hs, i) - (if hs[h] == i then {h} else {});
    assert hs[h] == i ==> h in HoldersOf(hs, i);
  }

  lemma HoldCounts(es: seq<User>, fs: seq<User>, hs: map<nat, nat>, h: nat, e: nat)
    requires HoldersOk(es, hs) && h !in hs && |es| <= |fs| && e < |fs|
    requires forall j :: 0 <= j < |fs| ==>
               fs[j].holds == (if j < |es| then es[j].holds else 0) + (if j == e then 1 else 0)
    ensures HoldersOk(fs, hs[h := e])
  {
    forall i | 0 <= i < |fs|
      ensures fs[i].holds == |HoldersOf(hs[h := e], i)|
    {
      HolderJoins(hs, h, e, i);
      if i >= |es| {
        assert HoldersOf(hs, i) == {};
      }
    }
  }

  lemma HoldsInv(g: System, h: nat, key: Key)
    requires SysInv(g) && WellFormed(g) && h !in g.holders
    ensures SysInv(Apply(g, Holds(h, key)))
  {
    hide Inv, OthersOk, Smooth, Hold;
    var t := Hold(g.s, key);
    SysOthers(g);
    HoldInv(g.s, key);
    HoldEffect(g.s, key, g.clock);
    SectionOthers(g, t);
    JobsFrame(g.s.entries, t.entries, g.workers);
    WaitersFrame(g.s.entries, t.entries, g.waiters);
    HoldCounts(g.s.entries, t.entries, g.holders, h, t.users[key]);
    HolderOthers(Become(g, t), g.holders[h := t.users[key]]);
    HoldStarted(g.s, key);
    var g' := g.(s := t, holders := g.holders[h := t.users[key]]);
    assert g' == Become(g, t).(holders := g.holders[h := t.users[key]]);
    Together(g');
  }

  lemma HoldStarted(s: Sched, key: Key)
    requires key in s.users ==> s.users[key] < |s.entries|
    ensures Hold(s, key).started == s.started
  {
  }

  lemma HolderOthers(g: System, hs: map<nat, nat>)
    requires OthersOk(g)
    ensures OthersOk(g.(holders := hs))
  {
    hide Inv, MaySleep;
  }

  lemma HeldCount(g: System, h: nat)
    requires HoldersOk(g.s.entries, g.holders) && h in g.holders
    ensures g.s.entries[g.holders[h]].holds > 0
  {
    assert h in HoldersOf(g.holders, g.holders[h]);
  }

  lemma ReleaseCounts(es: seq<User>, hs: map<nat, nat>, h: nat)
    requires HoldersOk(es, hs) && h in hs
    ensures HoldersOk(es[hs[h] := es[hs[h]].(holds := es[hs[h]].holds - 1)], hs - {h})
  {
    forall i | 0 <= i < |es|
      ensures |HoldersOf(hs - {h}, i)| == |HoldersOf(hs, i)| - (if hs[h] == i then 1 else 0)
    {
      HolderLeaves(hs, h, i);
    }
  }

  lemma ReleasesInv(g: System, h: nat)
    requires SysInv(g) && WellFormed(g) && h in g.holders
    ensures SysInv(Apply(g, Releases(h)))
  {
    hide Inv, OthersOk, Smooth;
    var i := g.holders[h];
    HeldCount(g, h);
    ReleaseCounts(g.s.entries, g.holders, h);
    SysOthers(g);
    ReleaseInv(g.s, i);
    ReleaseEffect(g.s, i, g.clock);
    var t := Release(g.s, i);
    SectionOthers(g, t);
    JobsFrame(g.s.entries, t.entries, g.workers);
    WaitersFrame(g.s.entries, t.entries, g.waiters);
    HoldersFrame(g.s.entries[i := g.s.entries[i].(holds := g.s.entries[i].holds - 1)], t.entries, g.holders - {h});
    HolderOthers(Become(g, t), g.holders - {h});
    Together(Become(g, t).(holders := g.holders - {h}));
  }

  // ---- the workers ----

  /** What a worker may come to be, jobs aside. */
  ghost predicate MayBe(g: System, pc: Worker)
    requires Indexed(g.s)
  {
    && (HasTaken(pc) ==> pc.ch <= g.s.changed)
    && (pc.HasClock? || pc.Drowsy? ==> pc.now <= g.clock)
    && (Sleeping(pc) && pc.ch == g.s.changed ==> MaySleep(g.s, g.clock, pc.due))
    && (pc.Asleep? ==> (pc.due.Some? <==> pc.until.Some?) && (pc.due.Some? ==> pc.until.value == pc.due.value + pc.lag))
  }

  lemma WorkerOthers(g: System, w: nat, pc: Worker)
    requires OthersOk(g) && w < |g.workers| && MayBe(g, pc)
    ensures OthersOk(Worked(g, w, pc))
  {
    hide Inv, MaySleep, KeepsWaiting;
  }

  lemma IdleJobs(es: seq<User>, workers: seq<Worker>, w: nat, pc: Worker)
    requires JobsOk(es, workers) && w < |workers| && !workers[w].InJob? && !pc.InJob?
    ensures JobsOk(es, workers[w := pc])
  {
    var ws := workers[w := pc];
    forall i | 0 <= i < |es| && es[i].phase.Running?
      ensures exists v :: 0 <= v < |ws| && ws[v] == InJob(i)
    {
      var v :| 0 <= v < |workers| && workers[v] == InJob(i);
      assert ws[v] == InJob(i);
    }
  }

  lemma MoveInv(g: System, w: nat, pc: Worker)
    requires SysInv(g) && w < |g.workers| && !g.workers[w].InJob? && !pc.InJob? && MayBe(g, pc)
    requires !g.workers[w].Off?
    ensures SysInv(Worked(g, w, pc))
  {
    hide Inv, OthersOk, MayBe;
    SysOthers(g);
    WorkerOthers(g, w, pc);
    IdleJobs(g.s.entries, g.workers, w, pc);
    Together(Worked(g, w, pc));
  }

  lemma StartsJob(es: seq<User>, fs: seq<User>, workers: seq<Worker>, w: nat, i: nat)
    requires JobsOk(es, workers) && w < |workers| && !workers[w].InJob? && OneStarts(es, fs, i)
    ensures JobsOk(fs, workers[w := InJob(i)])
  {
    var ws := workers[w := InJob(i)];
    forall j | 0 <= j < |fs| && fs[j].phase.Running?
      ensures exists v :: 0 <= v < |ws| && ws[v] == InJob(j)
    {
      if j == i {
        assert ws[w] == InJob(j);
      } else {
        var v :| 0 <= v < |workers| && workers[v] == InJob(j);
        assert ws[v] == InJob(j);
      }
    }
  }

  lemma LooksInv(g: System, w: nat)
    requires SysInv(g) && WellFormed(g) && Enabled(g, Looks(w))
    ensures SysInv(Apply(g, Looks(w)))
  {
    hide Inv, OthersOk, Smooth, TakeNext;
    var pc := g.workers[w];
    SysOthers(g);
    TakeNextInv(g.s, pc.now);
    TakeNextEffect(g.s, pc.now, g.clock);
    var (t, n) := TakeNext(g.s, pc.now);
    TakeNextStarted(g.s, pc.now);
    SectionOthers(g, t);
    WaitersFrame(g.s.entries, t.entries, g.waiters);
    HoldersFrame(g.s.entries, t.entries, g.holders);
    match n {
      case Exit =>
        WorkerOthers(Become(g, t), w, Off);
        IdleJobs(t.entries, g.workers, w, Off);
      case Runs(i) =>
        WorkerOthers(Become(g, t), w, InJob(i));
        StartsJob(g.s.entries, t.entries, g.workers, w, i);
      case Waits(due) =>
        OthersIndexed(Become(g, t));
        WorkerOthers(Become(g, t), w, Drowsy(pc.ch, pc.now, due));
        JobsFrame(g.s.entries, t.entries, g.workers);
        IdleJobs(t.entries, g.workers, w, Drowsy(pc.ch, pc.now, due));
    }
    Together(Apply(g, Looks(w)));
  }

  lemma OthersIndexed(g: System)
    requires OthersOk(g)
    ensures Indexed(g.s)
  {
  }

  lemma TakeNextStarted(s: Sched, now: Time)
    requires Inv(s)
    ensures Indexed(s) && TakeNext(s, now).0.started == s.started
  {
    InvIndexed(s);
    hide Inv;
    if !s.draining {
      RetryDueEffect(s, now);
    }
  }

  lemma EndsJob(es: seq<User>, fs: seq<User>, workers: seq<Worker>, w: nat)
    requires JobsOk(es, workers) && w < |workers| && workers[w].InJob? && |fs| == |es|
    requires !fs[workers[w].entry].phase.Running?
    requires forall j :: 0 <= j < |es| && j != workers[w].entry ==> fs[j] == es[j]
    ensures JobsOk(fs, workers[w := Top])
  {
    var ws := workers[w := Top];
    forall j | 0 <= j < |fs| && fs[j].phase.Running?
      ensures exists v :: 0 <= v < |ws| && ws[v] == InJob(j)
    {
      var v :| 0 <= v < |workers| && workers[v] == InJob(j);
      assert ws[v] == InJob(j);
    }
  }

  lemma FinishesInv(g: System, w: nat, backlog: int, outcome: Outcome, now: Time, jitter: real)
    requires SysInv(g) && WellFormed(g) && Enabled(g, Finishes(w, backlog, outcome, now, jitter))
    ensures SysInv(Apply(g, Finishes(w, backlog, outcome, now, jitter)))
  {
    hide Inv, OthersOk, Finish;
    var i := g.workers[w].entry;
    SysOthers(g);
    FinishInv(g.s, i, backlog, outcome, now, jitter);
    FinishEffect(g.s, i, backlog, outcome, now, jitter);
    var t := Finish(g.s, i, backlog, outcome, now, jitter);
    SectionOthers(g, t);
    WaitersFrame(g.s.entries, t.entries, g.waiters);
    HoldersFrame(g.s.entries, t.entries, g.holders);
    WorkerOthers(Become(g, t), w, Top);
    EndsJob(g.s.entries, t.entries, g.workers, w);
    Together(Worked(Become(g, t), w, Top));
  }

  // ---- every step, every run ----

  lemma FlagsSection(g: System, t: Sched)
    requires SysInv(g)
    requires t == g.s.(changed := g.s.changed + 1, started := t.started, stopped := t.stopped, draining := t.draining)
    requires t.started == g.s.started || StartedOk(Become(g, t))
    ensures SysInv(Become(g, t))
  {
    hide Inv;
    FlagsInv(g.s, t);
    SectionInv(g, t);
  }

  lemma StartsInv(g: System)
    requires SysInv(g) && WellFormed(g) && !g.s.started
    ensures SysInv(Apply(g, Starts))
  {
    hide Inv, MaySleep;
    var t := RunStarts(g.s);
    FlagsInv(g.s, t);
    var g' := Apply(g, Starts);
    assert forall i :: 0 <= i < |t.entries| ==> !t.entries[i].phase.Running?;
    assert forall w :: 0 <= w < |g'.workers| ==> g'.workers[w] == Top;
    assert WaitingOk(t, g.waiters);
    assert WaitersOk(t.entries, g.waiters);
    assert HoldersOk(t.entries, g.holders);
  }

  lemma ClockInv(g: System, to: Time)
    requires SysInv(g) && g.clock <= to
    ensures SysInv(g.(clock := to))
  {
    hide Inv;
    forall w | 0 <= w < |g.workers| && Sleeping(g.workers[w]) && g.workers[w].ch == g.s.changed
      ensures MaySleep(g.s, to, g.workers[w].due)
    {
      assert MaySleep(g.s, g.clock, g.workers[w].due);
    }
  }

  lemma ClosesInv(g: System, ch: nat)
    requires SysInv(g) && ch in g.closing
    ensures SysInv(g.(closing := g.closing - {ch}, closed := g.closed + {ch}))
  {
    hide Inv, MaySleep;
  }

  lemma WorkerEvent(g: System, e: Event)
    requires SysInv(g) && WellFormed(g) && Enabled(g, e)
    requires e.TakesChannel? || e.ReadsClock? || e.FallsAsleep? || e.Wakes? || e.Leaves?
    ensures SysInv(Apply(g, e))
  {
    hide Inv;
    assert HasTaken(g.workers[e.w]) ==> g.workers[e.w].ch <= g.s.changed;
    MoveInv(g, e.w, Apply(g, e).workers[e.w]);
  }

  lemma StepInv(g: System, e: Event, g': System)
    requires SysInv(g) && Step(g, e, g')
    ensures SysInv(g')
  {
    hide Inv, SysInv;
    SysParts(g);
    match e {
      case Tick(to) => ClockInv(g, to);
      case Closes(ch) => ClosesInv(g, ch);
      case Notifies(key, chars, now) =>
        NotifyInv(g.s, key, chars, now);
        NotifyEffect(g.s, key, chars, now, g.clock);
        NotifyFlags(g.s, key, chars, now);
        SectionInv(g, Notify(g.s, key, chars, now));
      case Waits(w, key, limit, now) =>
        if key in g.s.users {
          WaitsInv(g, w, key, limit, now);
        }
      case WaiterWakes(w, gone) => WaiterWakesInv(g, w, gone);
      case Holds(h, key) => HoldsInv(g, h, key);
      case Releases(h) => ReleasesInv(g, h);
      case Drains => FlagsSection(g, Drain(g.s));
      case Starts => StartsInv(g);
      case Ends => FlagsSection(g, RunEnds(g.s));
      case Measures(key, chars) =>
        MeasuredInv(g.s, key, chars);
        MeasuredEffect(g.s, key, chars, g.clock);
        SectionInv(g, Measured(g.s, key, chars));
      case Looks(w) => LooksInv(g, w);
      case Finishes(w, backlog, outcome, now, jitter) => FinishesInv(g, w, backlog, outcome, now, jitter);
      case _ => WorkerEvent(g, e);
    }
  }

  lemma SysThreads(g: System)
    requires SysInv(g)
    ensures WaitersOk(g.s.entries, g.waiters) && HoldersOk(g.s.entries, g.holders) && ChannelBounds(g)
    ensures JobsOk(g.s.entries, g.workers)
  {
  }

  lemma SysParts(g: System)
    requires SysInv(g)
    ensures Inv(g.s) && WellFormed(g)
  {
  }

  lemma NotifyFlags(s: Sched, key: Key, chars: int, now: Time)
    requires key in s.users ==> s.users[key] < |s.entries|
    ensures var t := Notify(s, key, chars, now);
            t.started == s.started && t.stopped == s.stopped && t.draining == s.draining
  {
  }

  lemma StartInvHolds(g: System)
    requires Start0(g)
    ensures SysInv(g)
  {
    hide Inv;
    InitInv(g.s.maxUsers);
    InvIndexed(g.s);
  }

  /** The invariant holds in every state of every run. */
  lemma {:induction false} RunInv(states: seq<System>, events: seq<Event>, i: nat)
    requires IsRun(states, events) && Start0(states[0]) && i < |states|
    ensures SysInv(states[i])
  {
    if i == 0 {
      StartInvHolds(states[0]);
    } else {
      RunInv(states, events, i - 1);
      assert Step(states[i - 1], events[i - 1], states[i - 1 + 1]);
      StepInv(states[i - 1], events[i - 1], states[i]);
    }
  }
}
