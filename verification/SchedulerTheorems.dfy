/** What holds of the scheduler in every interleaving of its callers. */
module SchedulerTheorems {
  import opened Common
  import opened SchedulerState
  import opened SchedulerInvariant
  import opened SchedulerSystem
  import opened SchedulerEffects
  import opened SchedulerRuns

  ghost predicate Reachable(g: System) {
    exists states: seq<System>, events: seq<Event> ::
      IsRun(states, events) && Start0(states[0]) && states[|states| - 1] == g
  }

  lemma ReachableInv(g: System)
    requires Reachable(g)
    ensures SysInv(g)
  {
    var states: seq<System>, events: seq<Event> :|
      IsRun(states, events) && Start0(states[0]) && states[|states| - 1] == g;
    RunInv(states, events, |states| - 1);
  }

  // ---- the partition ----

  ghost function JobWorkers(g: System): set<nat> {
    set w: nat | w < |g.workers| && g.workers[w].InJob?
  }

  /** A one-to-one relation between two sets makes them equally large. */
  lemma SameSize(g: System, ws: set<nat>, es: set<nat>)
    requires forall w :: w in ws ==> w < |g.workers| && g.workers[w].InJob? && g.workers[w].entry in es
    requires forall v, w :: v in ws && w in ws && v != w ==> g.workers[v].entry != g.workers[w].entry
    requires forall i :: i in es ==> exists w :: w in ws && g.workers[w].entry == i
    ensures |ws| == |es|
    decreases ws
  {
    if ws == {} {
      assert es == {};
    } else {
      var w :| w in ws;
      var i := g.workers[w].entry;
      forall j | j in es - {i}
        ensures exists v :: v in ws - {w} && g.workers[v].entry == j
      {
        var v :| v in ws && g.workers[v].entry == j;
        assert v in ws - {w};
      }
      SameSize(g, ws - {w}, es - {i});
    }
  }

  /** The places an entry can be in, each at most once. */
  ghost function Places(g: System, i: nat): nat {
    multiset(g.s.queue)[i] + multiset(g.s.retries)[i] + |set w: nat | w < |g.workers| && g.workers[w] == InJob(i)|
  }

  lemma OnceIn(s: seq<nat>, i: nat)
    requires Distinct(s)
    ensures multiset(s)[i] == if i in s then 1 else 0
  {
    if |s| > 0 {
      var r := s[..|s| - 1];
      assert s == r + [s[|s| - 1]];
      OnceIn(r, i);
    }
  }

  /**
   Each user with work is one entry, the one `users` has, in exactly one of
   the queue, the retry heap and a worker's hands, as its phase says; an entry
   without work is in none; running counts the jobs; no user has two; and the
   users with work never exceed maxUsers.
   */
  lemma Partition(g: System, i: nat)
    requires Reachable(g) && i < |g.s.entries|
    ensures Places(g, i) == if g.s.entries[i].phase.Idle? then 0 else 1
    ensures g.s.entries[i].phase.Queued? <==> i in g.s.queue
    ensures g.s.entries[i].phase.BackingOff? <==> i in g.s.retries
    ensures g.s.entries[i].phase.Running? <==> exists w :: 0 <= w < |g.workers| && g.workers[w] == InJob(i)
    ensures !g.s.entries[i].phase.Idle? ==>
              g.s.entries[i].key in g.s.users && g.s.users[g.s.entries[i].key] == i
    ensures g.s.running == |JobWorkers(g)|
    ensures Active(g.s) <= g.s.maxUsers || Active(g.s) == 0
  {
    ReachableInv(g);
    EntryInv(g.s, i);
    OnceIn(g.s.queue, i);
    SortedDistinct(g.s.entries, g.s.retries);
    OnceIn(g.s.retries, i);
    var here := set w: nat | w < |g.workers| && g.workers[w] == InJob(i);
    if g.s.entries[i].phase.Running? {
      var w :| 0 <= w < |g.workers| && g.workers[w] == InJob(i);
      assert here == {w};
    } else {
      assert here == {};
    }
    JobCount(g);
  }

  lemma JobCount(g: System)
    requires SysInv(g)
    ensures g.s.running == |JobWorkers(g)|
  {
    forall i | i in RunningSet(g.s.entries, -1)
      ensures exists w :: w in JobWorkers(g) && g.workers[w].entry == i
    {
      var w :| 0 <= w < |g.workers| && g.workers[w] == InJob(i);
      assert w in JobWorkers(g);
    }
    SameSize(g, JobWorkers(g), RunningSet(g.s.entries, -1));
  }

  /** No user ever has two jobs, also not by way of two entries of one key. */
  lemma OneJobPerUser(g: System, v: nat, w: nat)
    requires Reachable(g) && v < |g.workers| && w < |g.workers| && v != w
    requires g.workers[v].InJob? && g.workers[w].InJob?
    ensures g.workers[v].entry < |g.s.entries| && g.workers[w].entry < |g.s.entries|
    ensures g.s.entries[g.workers[v].entry].key != g.s.entries[g.workers[w].entry].key
  {
    ReachableInv(g);
    EntryInv(g.s, g.workers[v].entry);
    EntryInv(g.s, g.workers[w].entry);
  }

  // ---- no lost wake-up ----

  /** The close of the worker's channel has happened, is a closer's next step, or the channel is current. */
  lemma ReplacedIsClosed(g: System, ch: nat)
    requires Reachable(g) && ch < g.s.changed
    ensures ch in g.closed || (ch in g.closing && Enabled(g, Closes(ch)))
  {
    ReachableInv(g);
  }

  /**
   A worker asleep on the current channel while a user is startable has a
   timer, for a time that has come: it fires no later than the worker's own
   lag, the time it took from reading the clock to going to sleep, from now.
   Asleep on any other channel, it is awake, or a close away from it.
   */
  lemma NoLostWakeup(g: System, w: nat, i: nat)
    requires Reachable(g) && w < |g.workers| && g.workers[w].Asleep? && Startable(g.s, i)
    ensures g.workers[w].ch == g.s.changed ==>
              && g.workers[w].due.Some? && g.workers[w].due.value <= g.clock
              && g.workers[w].until.Some? && g.workers[w].until.value <= g.clock + g.workers[w].lag
    ensures g.workers[w].ch != g.s.changed ==>
              Enabled(g, Wakes(w, false)) || Enabled(g, Closes(g.workers[w].ch))
    // Exactly when it can wake now: once its own lag has passed since the time its timer is for.
    ensures g.workers[w].ch == g.s.changed ==>
              (Enabled(g, Wakes(w, false)) <==> g.workers[w].due.value + g.workers[w].lag <= g.clock)
    ensures g.workers[w].lag <= 0 ==> Enabled(g, Wakes(w, false)) || Enabled(g, Closes(g.workers[w].ch))
  {
    ReachableInv(g);
    assert HasTaken(g.workers[w]);
    if g.workers[w].ch == g.s.changed {
      assert MaySleep(g.s, g.clock, g.workers[w].due);
    }
  }

  /**
   Whoever becomes startable does so by a step that replaces the channel,
   unless it is a retry that has fallen due.
   */
  lemma StartableIsSignalled(g: System, e: Event, g': System, i: nat)
    requires SysInv(g) && Step(g, e, g')
    requires Startable(g'.s, i) && !Startable(g.s, i)
    ensures g'.s.changed == g.s.changed + 1
            || (i < |g.s.entries| && i in g.s.retries && g.s.entries[i].retryAt <= g.clock)
  {
    hide Inv, SysInv, Notify, WaitLoop, LeaveWait, Hold, Release, Measured, TakeNext, Finish, Smooth, Startable;
    hide WaitersOk, HoldersOk, JobsOk, SameAll, SameJobs, SameWaits, SameHolds, ChannelBounds;
    SysParts(g);
    SysThreads(g);
    if e.Looks? {
      LooksSignalled(g, e.w, g', i);
    } else if e.Waits? {
      if e.key in g.s.users {
        WaitsSignalled(g.s, e.key, e.limit, e.now, g.clock, i);
      }
    } else {
      match e {
        case Notifies(key, chars, now) =>
          NotifyEffect(g.s, key, chars, now, g.clock);
          SmoothSignals(g.s, g'.s, g.clock, i);
        case WaiterWakes(w, gone) =>
          WaiterCount(g, w);
          LeaveWaitEffect(g.s, g.waiters[w].entry, g.clock);
          WaitLoopEffect(g.s, g.waiters[w].entry, g.waiters[w].limit, g.waiters[w].now, g.clock);
          SmoothSignals(g.s, g'.s, g.clock, i);
        case Holds(h, key) =>
          HoldEffect(g.s, key, g.clock);
          SmoothSignals(g.s, g'.s, g.clock, i);
        case Releases(h) =>
          HeldCount(g, h);
          ReleaseEffect(g.s, g.holders[h], g.clock);
          SmoothSignals(g.s, g'.s, g.clock, i);
        case Measures(key, chars) =>
          MeasuredEffect(g.s, key, chars, g.clock);
          SmoothSignals(g.s, g'.s, g.clock, i);
        case Finishes(w, backlog, outcome, now, jitter) =>
          JobRuns(g, w);
          FinishEffect(g.s, g.workers[w].entry, backlog, outcome, now, jitter);
        case _ => SameStartable(g.s, g'.s, i);
      }
    }
  }

  /** A smooth section makes startable only retries that are due, or replaces the channel. */
  lemma SmoothSignals(s: Sched, t: Sched, clock: Time, i: nat)
    requires Smooth(s, t, clock) && Startable(t, i) && !Startable(s, i)
    ensures t.changed == s.changed + 1 || (i < |s.entries| && i in s.retries && s.entries[i].retryAt <= clock)
  {
    hide Startable;
  }

  lemma SameStartable(s: Sched, t: Sched, i: nat)
    requires t.entries == s.entries && t.queue == s.queue
    ensures Startable(t, i) <==> Startable(s, i)
  {
  }

  lemma LooksSignalled(g: System, w: nat, g': System, i: nat)
    requires SysInv(g) && Step(g, Looks(w), g') && Startable(g'.s, i) && !Startable(g.s, i)
    ensures i < |g.s.entries| && i in g.s.retries && g.s.entries[i].retryAt <= g.clock
  {
    hide Inv, SysInv, TakeNext, Smooth, Startable, SameWaits, SameHolds, SameJobs, JobsOk, HoldersOk, WaitersOk;
    hide Indexed;
    SysParts(g);
    SysThreads(g);
    TakeNextEffect(g.s, g.workers[w].now, g.clock);
    SmoothSignals(g.s, g'.s, g.clock, i);
  }

  lemma JobRuns(g: System, w: nat)
    requires JobsOk(g.s.entries, g.workers) && w < |g.workers| && g.workers[w].InJob?
    ensures g.workers[w].entry < |g.s.entries| && g.s.entries[g.workers[w].entry].phase.Running?
  {
  }

  lemma WaitsSignalled(s: Sched, key: Key, limit: int, now: Time, clock: Time, i: nat)
    requires Inv(s) && key in s.users
    ensures Indexed(s)
    ensures var j := s.users[key];
            var t := WaitLoop(EnterWait(s, j), j, limit, now).0;
            Startable(t, i) && !Startable(s, i) ==>
              t.changed == s.changed + 1 || (i < |s.entries| && i in s.retries && s.entries[i].retryAt <= clock)
  {
    hide Inv, WaitLoop;
    InvIndexed(s);
    var j := s.users[key];
    EntryInv(s, j);
    EnterWaitInv(s, key);
    WaitLoopEffect(EnterWait(s, j), j, limit, now, clock);
  }

  /** No channel is closed twice (which would panic). */
  lemma ClosedOnce(states: seq<System>, events: seq<Event>, i: nat, j: nat, ch: nat)
    requires IsRun(states, events) && Start0(states[0]) && i < j < |events|
    requires events[i] == Closes(ch)
    ensures events[j] != Closes(ch)
  {
    StaysClosed(states, events, i + 1, j, ch);
    RunInv(states, events, j);
    NotAgain(states[j], ch);
    assert Step(states[j], events[j], states[j + 1]);
  }

  lemma NotAgain(g: System, ch: nat)
    requires SysInv(g) && ch in g.closed
    ensures !Enabled(g, Closes(ch))
  {
  }

  lemma {:induction false} StaysClosed(states: seq<System>, events: seq<Event>, i: nat, j: nat, ch: nat)
    requires IsRun(states, events) && 0 < i <= j <= |events|
    requires events[i - 1] == Closes(ch)
    ensures ch in states[j].closed
  {
    if i == j {
      assert Step(states[i - 1], events[i - 1], states[i - 1 + 1]);
    } else {
      StaysClosed(states, events, i, j - 1, ch);
      assert Step(states[j - 1], events[j - 1], states[j - 1 + 1]);
    }
  }

  // ---- bounded overtaking ----

  lemma IndexPrefix(q: seq<nat>, r: seq<nat>, x: nat)
    requires q <= r && x in q
    ensures x in r && Index(r, x) == Index(q, x)
  {
    var a := Index(q, x);
    assert forall j :: 0 <= j <= a ==> r[j] == q[j];
  }

  lemma IndexRemove(q: seq<nat>, p: nat, x: nat)
    requires x in q && p < |q| && p < Index(q, x)
    ensures x in Remove(q, p) && Index(Remove(q, p), x) == Index(q, x) - 1
  {
    var r := Remove(q, p);
    var a := Index(q, x) - 1;
    assert r[a] == x;
    assert forall j :: 0 <= j < a ==> r[j] == if j < p then q[j] else q[j + 1];
  }

  lemma RetryDuePrefix(s: Sched, now: Time)
    requires Indexed(s)
    ensures s.queue <= RetryDue(s, now).queue
    decreases |s.retries|
  {
    if |s.retries| > 0 && s.entries[s.retries[0]].retryAt <= now {
      RetryDuePrefix(Enqueue(s.(retries := s.retries[1..]), s.retries[0]), now);
    }
  }

  ghost predicate Grows(s: Sched, t: Sched) {
    s.queue <= t.queue && t.running == s.running && (s.draining ==> t.draining)
  }

  lemma NotifyGrows(s: Sched, key: Key, chars: int, now: Time)
    requires key in s.users ==> s.users[key] < |s.entries|
    ensures Grows(s, Notify(s, key, chars, now))
  {
    hide Told;
    if !Full(s, key) {
      ToldGrows(Know(s, key), Know(s, key).users[key], chars, now);
    }
  }

  lemma ToldGrows(s: Sched, i: nat, chars: int, now: Time)
    requires i < |s.entries|
    ensures Grows(s, Told(s, i, chars, now))
  {
  }

  lemma LeaveWaitGrows(s: Sched, i: nat)
    requires i < |s.entries|
    ensures Grows(s, LeaveWait(s, i))
  {
  }

  lemma WaitLoopGrows(s: Sched, i: nat, limit: int, now: Time)
    requires i < |s.entries|
    ensures Grows(s, WaitLoop(s, i, limit, now).0)
  {
    hide LeaveWait;
    LeaveWaitGrows(s, i);
  }

  lemma HoldGrows(s: Sched, key: Key)
    requires key in s.users ==> s.users[key] < |s.entries|
    ensures Grows(s, Hold(s, key))
  {
  }

  lemma ReleaseGrows(s: Sched, i: nat)
    requires i < |s.entries|
    ensures Grows(s, Release(s, i))
  {
  }

  lemma MeasuredGrows(s: Sched, key: Key, chars: int)
    requires key in s.users ==> s.users[key] < |s.entries|
    ensures Grows(s, Measured(s, key, chars))
  {
  }

  lemma SettleQueue(s: Sched, i: nat, outcome: Outcome, now: Time, jitter: real)
    requires Indexed(s) && i < |s.entries|
    ensures s.queue <= Settle(s, i, outcome, now, jitter).queue
  {
    hide PushRetry;
    match outcome
    case JobCanceled =>
    case JobOk =>
    case JobFailed =>
    case JobPaused =>
  }

  lemma FinishQueue(s: Sched, i: nat, backlog: int, outcome: Outcome, now: Time, jitter: real)
    requires Indexed(s) && i < |s.entries|
    ensures s.queue <= Finish(s, i, backlog, outcome, now, jitter).queue
  {
    hide Settle, TakeJobMeasure;
    var s0 := s.(running := s.running - 1);
    JobMeasureEffect(s0, i, backlog);
    SettleQueue(TakeJobMeasure(s0, i, backlog), i, outcome, now, jitter);
  }

  /** Only next takes an entry out of the queue; whoever joins it joins the back. */
  lemma StepGrows(g: System, e: Event, g': System)
    requires Step(g, e, g') && !e.Looks?
    ensures g.s.queue <= g'.s.queue
    ensures !e.Finishes? ==> Grows(g.s, g'.s)
  {
    hide Notify, WaitLoop, LeaveWait, Hold, Release, Measured, Finish;
    match e {
      case Finishes(w, backlog, outcome, now, jitter) =>
        FinishQueue(g.s, g.workers[w].entry, backlog, outcome, now, jitter);
      case Notifies(key, chars, now) => NotifyGrows(g.s, key, chars, now);
      case Waits(w, key, limit, now) =>
        if key in g.s.users {
          WaitLoopGrows(EnterWait(g.s, g.s.users[key]), g.s.users[key], limit, now);
        }
      case WaiterWakes(w, gone) =>
        LeaveWaitGrows(g.s, g.waiters[w].entry);
        WaitLoopGrows(g.s, g.waiters[w].entry, g.waiters[w].limit, g.waiters[w].now);
      case Holds(h, key) =>
        HoldGrows(g.s, key);
      case Releases(h) => ReleaseGrows(g.s, g.holders[h]);
      case Measures(key, chars) => MeasuredGrows(g.s, key, chars);
      case _ =>
    }
  }

  /** How many users are ahead of x in the queue. */
  ghost function Ahead(s: Sched, x: nat): nat {
    if x in s.queue then Index(s.queue, x) else 0
  }

  /** The step is next starting a job. */
  ghost predicate StartsAJob(g: System, e: Event, g': System) {
    e.Looks? && e.w < |g'.workers| && g'.workers[e.w].InJob?
  }

  /** A worker that looks at the queue starts x, starts one ahead of it, or, draining, exits. */
  lemma LooksPast(g: System, w: nat, g': System, x: nat)
    requires SysInv(g) && Step(g, Looks(w), g') && Startable(g.s, x)
    ensures || (g'.workers[w] == InJob(x) && !Startable(g'.s, x))
            || (g'.workers[w].InJob? && Startable(g'.s, x) && Ahead(g'.s, x) == Ahead(g.s, x) - 1)
            || (!g'.workers[w].InJob? && Startable(g'.s, x) && Ahead(g'.s, x) == Ahead(g.s, x))
    ensures g'.workers[w].InJob? && Ahead(g.s, x) == 0 ==> g'.workers[w] == InJob(x)
  {
    hide Inv, SysInv, Start, RetryDue, FirstUnheld;
    SysParts(g);
    var now := g.workers[w].now;
    if !g.s.draining {
      var s1 := RetryDue(g.s, now);
      RetryDueEffect(g.s, now);
      RetryDuePrefix(g.s, now);
      IndexPrefix(g.s.queue, s1.queue, x);
      MovedSame(g.s, s1);
      PassOver(s1, x);
    }
  }

  /** One step, seen by a startable user that is still startable after it. */
  lemma OvertakingStep(g: System, e: Event, g': System, x: nat)
    requires SysInv(g) && Step(g, e, g') && Startable(g.s, x)
    ensures StartsAJob(g, e, g') && Ahead(g.s, x) == 0 ==> g'.workers[e.w] == InJob(x)
    ensures Startable(g'.s, x) ==>
              Ahead(g'.s, x) == Ahead(g.s, x) - (if StartsAJob(g, e, g') then 1 else 0)
  {
    hide SysInv, Inv, TakeNext;
    if e.Looks? {
      LooksPast(g, e.w, g', x);
    } else {
      StepGrows(g, e, g');
      IndexPrefix(g.s.queue, g'.s.queue, x);
    }
  }

  lemma PassOver(s: Sched, x: nat)
    requires Inv(s) && Startable(s, x)
    ensures Indexed(s)
    ensures var p := FirstUnheld(s, 0);
            && p <= Index(s.queue, x) < |s.queue|
            && (p == Index(s.queue, x) ==> s.queue[p] == x && !Startable(Start(s, p), x))
            && (p < Index(s.queue, x) ==>
                Startable(Start(s, p), x) && Index(Start(s, p).queue, x) == Index(s.queue, x) - 1)
  {
    InvIndexed(s);
    var p := FirstUnheld(s, 0);
    if p < Index(s.queue, x) {
      IndexRemove(s.queue, p, x);
    } else {
      DistinctRemove(s.queue, p);
    }
  }

  ghost function JobStarts(states: seq<System>, events: seq<Event>, a: nat, b: nat): nat
    requires |states| == |events| + 1 && a <= b <= |events|
  {
    if a == b then 0
    else JobStarts(states, events, a, b - 1)
         + (if StartsAJob(states[b - 1], events[b - 1], states[b]) then 1 else 0)
  }

  ghost predicate Unheld(s: Sched, x: nat) {
    x < |s.entries| && s.entries[x].holds == 0
  }

  /** The step starts x's own job. */
  ghost predicate StartsOwn(g: System, e: Event, g': System, x: nat) {
    StartsAJob(g, e, g') && g'.workers[e.w] == InJob(x)
  }

  /** A queued user held by nobody leaves the queue only by the start of its own job. */
  lemma LeavesByStarting(g: System, e: Event, g': System, x: nat)
    requires SysInv(g) && Step(g, e, g') && Startable(g.s, x) && Unheld(g'.s, x)
    ensures Startable(g'.s, x) || StartsOwn(g, e, g', x)
  {
    hide SysInv, Inv, TakeNext;
    if e.Looks? {
      LooksPast(g, e.w, g', x);
    } else {
      StepGrows(g, e, g');
      IndexPrefix(g.s.queue, g'.s.queue, x);
    }
  }

  /** x started its own job at step c, after at most k others. */
  ghost predicate StartedAfter(states: seq<System>, events: seq<Event>, a: nat, c: nat, x: nat, k: nat)
    requires |states| == |events| + 1 && a <= c < |events|
  {
    StartsOwn(states[c], events[c], states[c + 1], x) && JobStarts(states, events, a, c) <= k
  }

  /** x is still queued at b, and has moved up since a by exactly the jobs started. */
  ghost predicate StillQueued(states: seq<System>, events: seq<Event>, a: nat, b: nat, x: nat)
    requires |states| == |events| + 1 && a <= b <= |events|
  {
    Startable(states[b].s, x) && JobStarts(states, events, a, b) + Ahead(states[b].s, x) == Ahead(states[a].s, x)
  }

  /**
   From any moment on at which a user is queued, and for as long as nobody
   holds it, whatever is notified, retried, finished or held besides: it is
   still queued and has moved up by exactly the jobs started, or it started
   after at most as many others as were ahead of it.
   */
  lemma {:induction false} Overtaking(states: seq<System>, events: seq<Event>, a: nat, b: nat, x: nat)
    requires IsRun(states, events) && Start0(states[0]) && a <= b <= |events|
    requires Startable(states[a].s, x) && forall i :: a <= i <= b ==> Unheld(states[i].s, x)
    ensures || StillQueued(states, events, a, b, x)
            || exists c :: a <= c < b && StartedAfter(states, events, a, c, x, Ahead(states[a].s, x))
  {
    hide SysInv, Step, Ahead, StartsAJob, StartsOwn, Startable, Unheld;
    if a < b {
      Overtaking(states, events, a, b - 1, x);
      if StillQueued(states, events, a, b - 1, x) {
        RunInv(states, events, b - 1);
        assert Step(states[b - 1], events[b - 1], states[b - 1 + 1]);
        OvertakingStep(states[b - 1], events[b - 1], states[b], x);
        LeavesByStarting(states[b - 1], events[b - 1], states[b], x);
        if !Startable(states[b].s, x) {
          assert StartedAfter(states, events, a, b - 1, x, Ahead(states[a].s, x));
        }
      }
    }
  }

  /** With k users ahead of it, a user nobody holds has started once k + 1 jobs have, after at most k others. */
  lemma BoundedOvertaking(states: seq<System>, events: seq<Event>, a: nat, b: nat, x: nat)
    requires IsRun(states, events) && Start0(states[0]) && a <= b <= |events|
    requires Startable(states[a].s, x) && forall i :: a <= i <= b ==> Unheld(states[i].s, x)
    requires JobStarts(states, events, a, b) > Ahead(states[a].s, x)
    ensures exists c :: a <= c < b && StartedAfter(states, events, a, c, x, Ahead(states[a].s, x))
  {
    hide SysInv, Step, Ahead, Startable, StartedAfter;
    Overtaking(states, events, a, b, x);
  }

  // ---- waiting and draining ----

  /** An Add asleep in WaitBacklog on the current channel waits on a job: its user is queued or running. */
  lemma WaitsOnAJob(g: System, w: nat)
    requires Reachable(g) && w in g.waiters && g.waiters[w].ch == g.s.changed
    ensures g.waiters[w].entry < |g.s.entries|
    ensures var u := g.s.entries[g.waiters[w].entry];
            && (u.phase.Queued? || u.phase.Running?) && u.backlog > g.waiters[w].limit
            && u.key in g.s.users && g.s.users[u.key] == g.waiters[w].entry
    ensures !g.s.stopped && !g.s.draining
  {
    ReachableInv(g);
    EntryInv(g.s, g.waiters[w].entry);
  }

  /** Why a WaitBacklog on entry i may return nil. */
  ghost predicate MayReturn(s: Sched, i: nat, limit: int)
    requires i < |s.entries|
  {
    || s.entries[i].backlog <= limit
    || s.entries[i].phase.BackingOff?
    || s.stopped || s.draining
    || (s.entries[i].phase.Idle? && |s.queue| + s.running + |s.retries| >= s.maxUsers)
  }

  /** A nil return has one of the documented reasons at the moment it is decided, and without one there is none. */
  lemma NilReturn(g: System, w: nat, g': System)
    requires SysInv(g) && Step(g, WaiterWakes(w, false), g')
    ensures g.waiters[w].entry < |g.s.entries|
    ensures w !in g'.waiters <==> MayReturn(g.s, g.waiters[w].entry, g.waiters[w].limit)
  {
  }

  lemma NilAtOnce(g: System, w: nat, key: Key, limit: int, now: Time, g': System)
    requires SysInv(g) && Step(g, Event.Waits(w, key, limit, now), g')
    ensures key in g.s.users ==> g.s.users[key] < |g.s.entries|
    ensures w !in g'.waiters <==> key !in g.s.users || MayReturn(g.s, g.s.users[key], limit)
  {
  }

  /** Once no job runs while it drains (WaitDrained's nil), none ever runs again. */
  lemma {:induction false} DrainedForever(states: seq<System>, events: seq<Event>, i: nat, j: nat)
    requires IsRun(states, events) && Start0(states[0]) && i <= j < |states|
    requires states[i].s.draining && states[i].s.running == 0
    ensures states[j].s.draining && states[j].s.running == 0
    ensures forall w :: 0 <= w < |states[j].workers| ==> !states[j].workers[w].InJob?
  {
    hide SysInv, Step;
    RunInv(states, events, j);
    if i < j {
      DrainedForever(states, events, i, j - 1);
      RunInv(states, events, j - 1);
      assert Step(states[j - 1], events[j - 1], states[j - 1 + 1]);
      DrainedStep(states[j - 1], events[j - 1], states[j]);
    }
    NoJobs(states[j]);
  }

  lemma NoJobs(g: System)
    requires SysInv(g) && g.s.running == 0
    ensures forall w :: 0 <= w < |g.workers| ==> !g.workers[w].InJob?
  {
    hide SysInv;
    JobCount(g);
    forall w | 0 <= w < |g.workers|
      ensures !g.workers[w].InJob?
    {
      assert w !in JobWorkers(g);
    }
  }

  lemma DrainedStep(g: System, e: Event, g': System)
    requires SysInv(g) && Step(g, e, g') && g.s.draining && g.s.running == 0
    requires forall w :: 0 <= w < |g.workers| ==> !g.workers[w].InJob?
    ensures g'.s.draining && g'.s.running == 0
  {
    if !e.Looks? {
      hide SysInv, Apply;
      StepGrows(g, e, g');
    }
  }
}
