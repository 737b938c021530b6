/**
 Backoff over whole runs: a user whose job failed or was paused has no job
 before its retry time.
 */
module SchedulerBackoff {
  import opened Common
  import opened SchedulerState
  import opened SchedulerInvariant
  import opened SchedulerSystem
  import opened SchedulerEffects
  import opened SchedulerRuns
  import opened SchedulerViews
  import opened SchedulerTheorems
  import opened SchedulerLaws
  import SchedulerEstimate
  import RetryDelay

  /** u backs off in v as before, or did not back off. */
  predicate Backed(u: User, v: User) {
    u.phase.BackingOff? ==> v.phase.BackingOff? && v.retryAt == u.retryAt && v.key == u.key
  }

  ghost predicate BackedAll(s: Sched, t: Sched) {
    |s.entries| <= |t.entries| && forall i :: 0 <= i < |s.entries| ==> Backed(s.entries[i], t.entries[i])
  }

  lemma NotifyBacks(s: Sched, key: Key, chars: int, now: Time)
    requires key in s.users ==> s.users[key] < |s.entries|
    ensures BackedAll(s, Notify(s, key, chars, now))
  {
    hide Told;
    if !Full(s, key) {
      ToldBacks(Know(s, key), Know(s, key).users[key], chars, now);
    }
  }

  lemma ToldBacks(s: Sched, i: nat, chars: int, now: Time)
    requires i < |s.entries|
    ensures BackedAll(s, Told(s, i, chars, now))
  {
    match s.entries[i].phase
    case Idle =>
    case Queued =>
    case Running =>
    case BackingOff =>
  }

  lemma LeaveWaitBacks(s: Sched, i: nat)
    requires i < |s.entries|
    ensures BackedAll(s, LeaveWait(s, i))
  {
  }

  lemma WaitLoopBacks(s: Sched, i: nat, limit: int, now: Time)
    requires i < |s.entries|
    ensures BackedAll(s, WaitLoop(s, i, limit, now).0)
  {
    hide LeaveWait;
    LeaveWaitBacks(s, i);
  }

  lemma HoldBacks(s: Sched, key: Key)
    requires key in s.users ==> s.users[key] < |s.entries|
    ensures BackedAll(s, Hold(s, key))
  {
  }

  lemma ReleaseBacks(s: Sched, i: nat)
    requires i < |s.entries|
    ensures BackedAll(s, Release(s, i))
  {
  }

  lemma MeasuredBacks(s: Sched, key: Key, chars: int)
    requires key in s.users ==> s.users[key] < |s.entries|
    ensures BackedAll(s, Measured(s, key, chars))
  {
  }

  /** Retries that are due leave the heap, and no others. */
  lemma {:induction false} DueOnly(s: Sched, now: Time)
    requires Indexed(s)
    ensures var t := RetryDue(s, now);
            forall i :: 0 <= i < |s.entries| && s.entries[i].retryAt > now ==> t.entries[i] == s.entries[i]
    decreases |s.retries|
  {
    if |s.retries| > 0 && s.entries[s.retries[0]].retryAt <= now {
      DueOnly(Enqueue(s.(retries := s.retries[1..]), s.retries[0]), now);
    }
  }

  lemma NextBacks(s: Sched, now: Time, i: nat)
    requires Inv(s) && i < |s.entries| && s.entries[i].phase.BackingOff? && s.entries[i].retryAt > now
    ensures Indexed(s) && TakeNext(s, now).0.entries[i] == s.entries[i]
  {
    hide Inv, RetryDue, FirstUnheld;
    InvIndexed(s);
    if !s.draining {
      DueOnly(s, now);
      RetryDueEffect(s, now);
      var s1 := RetryDue(s, now);
      var p := FirstUnheld(s1, 0);
      if p < |s1.queue| {
        QueuedAt(s1, p);
      }
    }
  }

  lemma QueuedAt(s: Sched, p: nat)
    requires Inv(s) && p < |s.queue|
    ensures s.queue[p] < |s.entries| && s.entries[s.queue[p]].phase.Queued?
  {
    assert s.queue[p] in s.queue;
  }

  /** One step: a user that backs off goes on doing so, unless a worker finds its retry due. */
  lemma BackedStep(g: System, e: Event, g': System, i: nat)
    requires SysInv(g) && Step(g, e, g') && i < |g.s.entries| && g.s.entries[i].phase.BackingOff?
    requires g.s.entries[i].retryAt > g.clock
    ensures i < |g'.s.entries| && Backed(g.s.entries[i], g'.s.entries[i])
  {
    hide SysInv, Inv, Notify, WaitLoop, LeaveWait, Hold, Release, TakeNext, Measured, Finish, EnterWait;
    hide Backed, BackedAll, JobsOk, WaitersOk, HoldersOk, Indexed;
    SysParts(g);
    if e.Looks? {
      LooksBacks(g, e, g', i);
    } else if e.Finishes? {
      FinishBacks(g, e, g', i);
    } else {
      OtherBacks(g, e, g');
      BackedAt(g.s, g'.s, i);
    }
  }

  lemma BackedAt(s: Sched, t: Sched, i: nat)
    requires BackedAll(s, t) && i < |s.entries|
    ensures i < |t.entries| && Backed(s.entries[i], t.entries[i])
  {
  }

  lemma LooksBacks(g: System, e: Event, g': System, i: nat)
    requires SysInv(g) && Step(g, e, g') && e.Looks? && i < |g.s.entries| && g.s.entries[i].phase.BackingOff?
    requires g.s.entries[i].retryAt > g.clock
    ensures i < |g'.s.entries| && Backed(g.s.entries[i], g'.s.entries[i])
  {
    hide SysInv, Inv, TakeNext, JobsOk, WaitersOk, HoldersOk;
    SysParts(g);
    SysThreads(g);
    NextBacks(g.s, g.workers[e.w].now, i);
  }

  lemma FinishBacks(g: System, e: Event, g': System, i: nat)
    requires SysInv(g) && Step(g, e, g') && e.Finishes? && i < |g.s.entries| && g.s.entries[i].phase.BackingOff?
    ensures i < |g'.s.entries| && Backed(g.s.entries[i], g'.s.entries[i])
  {
    hide SysInv, Inv, Finish, JobsOk, WaitersOk, HoldersOk;
    SysParts(g);
    SysThreads(g);
    JobRuns(g, e.w);
    FinishEffect(g.s, g.workers[e.w].entry, e.backlog, e.outcome, e.now, e.jitter);
  }

  lemma OtherBacks(g: System, e: Event, g': System)
    requires SysInv(g) && Step(g, e, g') && !e.Looks? && !e.Finishes?
    ensures BackedAll(g.s, g'.s)
  {
    hide SysInv, Inv, Notify, WaitLoop, LeaveWait, Hold, Release, Measured, EnterWait, BackedAll;
    SysParts(g);
    match e {
      case Notifies(key, chars, now) => NotifyBacks(g.s, key, chars, now);
      case Waits(w, key, limit, now) =>
        if key in g.s.users {
          WaitsBacks(g.s, g.s.users[key], limit, now);
        } else {
          SameBacks(g.s, g'.s);
        }
      case WaiterWakes(w, gone) =>
        LeaveWaitBacks(g.s, g.waiters[w].entry);
        WaitLoopBacks(g.s, g.waiters[w].entry, g.waiters[w].limit, g.waiters[w].now);
      case Holds(h, key) => HoldBacks(g.s, key);
      case Releases(h) => ReleaseBacks(g.s, g.holders[h]);
      case Measures(key, chars) => MeasuredBacks(g.s, key, chars);
      case _ => SameBacks(g.s, g'.s);
    }
  }

  lemma SameBacks(s: Sched, t: Sched)
    requires t.entries == s.entries
    ensures BackedAll(s, t)
  {
  }

  lemma WaitsBacks(s: Sched, i: nat, limit: int, now: Time)
    requires i < |s.entries|
    ensures BackedAll(s, WaitLoop(EnterWait(s, i), i, limit, now).0)
  {
    hide WaitLoop;
    WaitLoopBacks(EnterWait(s, i), i, limit, now);
  }

  lemma {:induction false} BacksOffUntil(states: seq<System>, events: seq<Event>, a: nat, b: nat, i: nat)
    requires IsRun(states, events) && Start0(states[0]) && a <= b < |states|
    requires i < |states[a].s.entries| && states[a].s.entries[i].phase.BackingOff?
    ensures states[a].s.entries[i].retryAt <= states[b].clock ||
            (i < |states[b].s.entries| && Backed(states[a].s.entries[i], states[b].s.entries[i]))
    decreases b - a
  {
    hide SysInv, Step, Start0;
    if a < b {
      BacksOffUntil(states, events, a, b - 1, i);
      RunInv(states, events, b - 1);
      assert Step(states[b - 1], events[b - 1], states[b - 1 + 1]);
      StepClock(states[b - 1], events[b - 1], states[b]);
      if states[a].s.entries[i].retryAt > states[b].clock {
        BackedStep(states[b - 1], events[b - 1], states[b], i);
      }
    }
  }

  lemma StepClock(g: System, e: Event, g': System)
    requires SysInv(g) && Step(g, e, g')
    ensures g.clock <= g'.clock
  {
    hide SysInv, Notify, WaitLoop, LeaveWait, Hold, Release, TakeNext, Measured, Finish, EnterWait, WellFormed;
  }

  /** A worker does not start a user that still backs off after the start. */
  lemma NotStarted(g: System, e: Event, g': System, j: nat, i: nat)
    requires SysInv(g) && Step(g, e, g') && StartsOwn(g, e, g', j) && i < |g.s.entries| && j < |g.s.entries|
    requires g.s.entries[i].phase.BackingOff? && g.s.entries[i].retryAt > g.clock
    ensures g.s.entries[j].key != g.s.entries[i].key
  {
    hide SysInv, Inv, TakeNext, WaitersOk, HoldersOk;
    SysParts(g);
    BackedStep(g, e, g', i);
    SchedulerEstimate.TakeNextKeys(g.s, g.workers[e.w].now);
    StepInv(g, e, g');
    SysParts(g');
    SysThreads(g');
    EntryInv(g'.s, i);
    EntryInv(g'.s, j);
  }

  /** How long a job that ended so makes its user back off; before: its failures in a row until then. */
  ghost predicate BacksOffFor(before: nat, outcome: Outcome, jitter: real, wait: int) {
    match outcome
    case JobFailed => WaitAfter(before + 1, jitter, wait)
    case JobPaused => wait == 600 * RetryDelay.SECOND
    case _ => false
  }

  /**
   After the end of a job that failed or was paused, its user has no job
   before its wait is over: the doubled, jittered one for its failures in a
   row, 24 seconds at least, or ten minutes.
   */
  lemma NoJobBefore(states: seq<System>, events: seq<Event>, a: nat, b: nat, i: nat, j: nat)
    requires IsRun(states, events) && Start0(states[0]) && a < b < |events|
    requires events[a].Finishes? && (events[a].outcome.JobFailed? || events[a].outcome.JobPaused?)
    requires RetryDelay.Jitter(events[a].jitter)
    requires events[a].w < |states[a].workers| && states[a].workers[events[a].w] == InJob(i)
    requires i < |states[a].s.entries| && j < |states[b].s.entries|
    requires StartsOwn(states[b], events[b], states[b + 1], j)
    requires states[b].s.entries[j].key == states[a].s.entries[i].key
    ensures exists wait ::
              && BacksOffFor(states[a].s.entries[i].failures, events[a].outcome, events[a].jitter, wait)
              && states[b].clock >= events[a].now + wait
  {
    hide SysInv, Step, Start0, StartsOwn, WaitAfter, Backed;
    RunInv(states, events, a);
    RunInv(states, events, b);
    assert Step(states[a], events[a], states[a + 1]) && Step(states[b], events[b], states[b + 1]);
    EndsBackingOff(states[a], events[a], states[a + 1], i);
    var v := states[a + 1].s.entries[i];
    assert BacksOffFor(states[a].s.entries[i].failures, events[a].outcome, events[a].jitter, v.retryAt - events[a].now);
    BacksOffUntil(states, events, a + 1, b, i);
    if v.retryAt > states[b].clock {
      BackedIs(v, states[b].s.entries[i]);
      NotStarted(states[b], events[b], states[b + 1], j, i);
    }
  }

  lemma BackedIs(u: User, v: User)
    requires Backed(u, v) && u.phase.BackingOff?
    ensures v.phase.BackingOff? && v.retryAt == u.retryAt && v.key == u.key
  {
  }

  lemma EndsBackingOff(g: System, e: Event, g': System, i: nat)
    requires SysInv(g) && Step(g, e, g') && e.Finishes? && (e.outcome.JobFailed? || e.outcome.JobPaused?)
    requires RetryDelay.Jitter(e.jitter) && e.w < |g.workers| && g.workers[e.w] == InJob(i) && i < |g.s.entries|
    ensures i < |g'.s.entries|
    ensures var v := g'.s.entries[i];
            && v.phase.BackingOff? && v.key == g.s.entries[i].key
            && BacksOffFor(g.s.entries[i].failures, e.outcome, e.jitter, v.retryAt - e.now)
  {
    hide SysInv, Inv, Finish, WaitAfter;
    SysParts(g);
    FinishIs(g.s, i, e.backlog, e.outcome, e.now, e.jitter);
    SchedulerEstimate.FinishKeys(g.s, i, e.backlog, e.outcome, e.now, e.jitter);
  }
}
