/**
 What a caller can tell of the sections from the states before and after a
 step: counts, places and times, and how long what they set lasts.
 */
module SchedulerLaws {
  import opened Common
  import opened SchedulerState
  import opened SchedulerInvariant
  import opened SchedulerSystem
  import opened SchedulerEffects
  import opened SchedulerRuns
  import opened SchedulerViews
  import opened SchedulerTheorems
  import RetryDelay

  // ---- who has work ----

  ghost function WithWork(s: Sched): set<nat> {
    set i: nat | i < |s.entries| && !s.entries[i].phase.Idle?
  }

  ghost function Members(q: seq<nat>): set<nat> {
    set i | i in q
  }

  lemma {:induction false} MembersSize(q: seq<nat>)
    requires Distinct(q)
    ensures |Members(q)| == |q|
  {
    if q == [] {
      assert Members(q) == {};
    } else {
      var r := q[..|q| - 1];
      MembersSize(r);
      assert q == r + [q[|q| - 1]];
      assert Members(q) == Members(r) + {q[|q| - 1]};
    }
  }

  /** The three lengths the code adds up count the users with work. */
  lemma CountsWork(g: System)
    requires Reachable(g)
    ensures |g.s.queue| + g.s.running + |g.s.retries| == |WithWork(g.s)|
  {
    hide SysInv, Inv;
    ReachableInv(g);
    SysParts(g);
    Counted(g.s);
  }

  lemma Counted(s: Sched)
    requires Inv(s)
    ensures |s.queue| + s.running + |s.retries| == |WithWork(s)|
  {
    hide Sorted, UsersOk, Distinct;
    SortedDistinct(s.entries, s.retries);
    MembersSize(s.queue);
    MembersSize(s.retries);
    var q, r, j := Members(s.queue), Members(s.retries), RunningSet(s.entries, -1);
    assert WithWork(s) == q + r + j;
    assert q !! r && (q + r) !! j;
  }

  // ---- Notify ----

  ghost predicate HasWork(s: Sched, key: Key)
    requires Known(s)
  {
    key in s.users && !s.entries[s.users[key]].phase.Idle?
  }

  /** key's entry u after a notification at now that met its entry before, if it had one. */
  ghost predicate Notified(before: Option<User>, u: User, chars: int, now: Time) {
    && u.backlog == (if before.Some? then before.value.backlog else 0) + chars
    && if before.None? || before.value.phase.Idle? then u.phase.Queued? && u.since == Some(now)
       else
         && u.phase == before.value.phase && u.since == before.value.since
         && (u.phase.Running? ==>
             && u.added == before.value.added + chars && u.dirty
             && u.dirtySince == if before.value.dirty then before.value.dirtySince else Some(now))
  }

  ghost function EntryOf(s: Sched, key: Key): Option<User>
    requires Known(s)
  {
    if key in s.users then Some(s.entries[s.users[key]]) else None
  }

  /**
   A notification of a user that has work, or that finds fewer than maxUsers
   with work, is taken: the backlog grows by it, a user without work joins the
   back of the queue, nobody else is touched, and the channel is replaced. Any
   other changes nothing.
   */
  lemma NotifyTaken(g: System, key: Key, chars: int, now: Time, g': System)
    requires Reachable(g) && Step(g, Notifies(key, chars, now), g')
    ensures Known(g.s) && Known(g'.s)
    ensures HasWork(g.s, key) || |WithWork(g.s)| < g.s.maxUsers ==>
              && HasWork(g'.s, key) && Notified(EntryOf(g.s, key), EntryOf(g'.s, key).value, chars, now)
              && g'.s.queue == g.s.queue + (if HasWork(g.s, key) then [] else [g'.s.users[key]])
              && (forall k :: k != key ==> EntryOf(g'.s, k) == EntryOf(g.s, k))
              && g'.s.changed == g.s.changed + 1 && g.s.changed in g'.closing
    ensures !HasWork(g.s, key) && |WithWork(g.s)| >= g.s.maxUsers ==> g' == g
  {
    hide SysInv, Inv, Reachable, WithWork, SchedulerState.Notify, Known, EntryOf, HasWork, Notified;
    CountsWork(g);
    ReachableInv(g);
    SysParts(g);
    InvKnown(g.s);
    NotifyIs(g.s, key, chars, now);
  }

  lemma NotifyIs(s: Sched, key: Key, chars: int, now: Time)
    requires Known(s)
    ensures var t := Notify(s, key, chars, now);
            && Known(t)
            && (HasWork(s, key) || |s.queue| + s.running + |s.retries| < s.maxUsers ==>
                && HasWork(t, key) && Notified(EntryOf(s, key), EntryOf(t, key).value, chars, now)
                && t.queue == s.queue + (if HasWork(s, key) then [] else [t.users[key]])
                && (forall k :: k != key ==> EntryOf(t, k) == EntryOf(s, k))
                && t.changed == s.changed + 1)
            && (!HasWork(s, key) && |s.queue| + s.running + |s.retries| >= s.maxUsers ==> t == s)
  {
    hide Told, Know, Notified;
    if HasWork(s, key) || |s.queue| + s.running + |s.retries| < s.maxUsers {
      KnowsKey(s, key);
      var s1 := Know(s, key);
      var i := s1.users[key];
      ToldNotifies(s1, i, chars, now);
      NewNotified(s, key, Told(s1, i, chars, now).entries[i], chars, now);
    }
  }

  /** A user met for the first time is one met idle. */
  lemma NewNotified(s: Sched, key: Key, u: User, chars: int, now: Time)
    requires Known(s)
    ensures key !in s.users ==> Notified(Some(NewUser(key)), u, chars, now) == Notified(None, u, chars, now)
  {
  }

  lemma KnowsKey(s: Sched, key: Key)
    requires Known(s)
    ensures var t := Know(s, key);
            && Known(t) && key in t.users && t == s.(entries := t.entries, users := t.users)
            && (forall k :: k != key ==> EntryOf(t, k) == EntryOf(s, k))
            && EntryOf(t, key) == if key in s.users then EntryOf(s, key) else Some(NewUser(key))
  {
  }

  lemma ToldNotifies(s: Sched, i: nat, chars: int, now: Time)
    requires Known(s) && i < |s.entries| && s.entries[i].key in s.users && s.users[s.entries[i].key] == i
    ensures var t := Told(s, i, chars, now);
            && |t.entries| == |s.entries| && t.entries == s.entries[i := t.entries[i]] && t.users == s.users
            && t.entries[i].key == s.entries[i].key && !t.entries[i].phase.Idle?
            && Notified(Some(s.entries[i]), t.entries[i], chars, now)
            && t.queue == s.queue + (if s.entries[i].phase.Idle? then [i] else []) && t.changed == s.changed
  {
    match s.entries[i].phase
    case Idle =>
    case Queued =>
    case Running =>
    case BackingOff =>
  }

  // ---- the end of a job ----

  /** The wait before the retry after a number of failed jobs in a row. */
  ghost predicate WaitAfter(failures: nat, jitter: real, wait: int) {
    && (1 <= failures <= 5 ==>
        wait == RetryDelay.Jittered(RetryDelay.RETRY_BASE * RetryDelay.Pow2(failures - 1), jitter))
    && (failures >= 6 ==> wait == RetryDelay.Cap(jitter))
    && 24 * RetryDelay.SECOND <= wait <= RetryDelay.RETRY_MAX
  }

  ghost predicate Ended(u: User, v: User, outcome: Outcome, now: Time, jitter: real) {
    match outcome
    case JobFailed =>
      v.phase.BackingOff? && v.failures == u.failures + 1 && WaitAfter(v.failures, jitter, v.retryAt - now)
    case JobPaused =>
      v.phase.BackingOff? && v.failures == u.failures + 1 && v.retryAt - now == 600 * RetryDelay.SECOND
    case JobOk => v.failures == 0 && if u.dirty then v.phase.Queued? else v.phase.Idle?
    case JobCanceled => v.failures == u.failures && v.phase.Queued?
  }

  /**
   The entry of a job that ended: after a failure it retries once the doubled,
   jittered wait for its failures in a row is over, after a pause in ten
   minutes; a success clears the count, a cut leaves it.
   */
  lemma JobEnded(g: System, w: nat, backlog: int, outcome: Outcome, now: Time, jitter: real, g': System)
    requires Reachable(g) && Step(g, Finishes(w, backlog, outcome, now, jitter), g') && RetryDelay.Jitter(jitter)
    ensures g.workers[w].entry < |g.s.entries| == |g'.s.entries|
    ensures var i := g.workers[w].entry;
            var u, v := g.s.entries[i], g'.s.entries[i];
            && v.backlog == (if backlog >= 0 then backlog + u.added else u.backlog)
            && Ended(u, v, outcome, now, jitter)
            && g'.s.changed == g.s.changed + 1 && g.s.changed in g'.closing
            && g'.s.running == g.s.running - 1 && g'.workers == g.workers[w := Top]
  {
    hide SysInv, Inv, Reachable, Finish, WaitAfter;
    ReachableInv(g);
    SysParts(g);
    FinishIs(g.s, g.workers[w].entry, backlog, outcome, now, jitter);
  }

  lemma FinishIs(s: Sched, i: nat, backlog: int, outcome: Outcome, now: Time, jitter: real)
    requires Indexed(s) && i < |s.entries| && RetryDelay.Jitter(jitter)
    ensures var t := Finish(s, i, backlog, outcome, now, jitter);
            && |t.entries| == |s.entries| && t.changed == s.changed + 1 && t.running == s.running - 1
            && t.entries[i].backlog == (if backlog >= 0 then backlog + s.entries[i].added else s.entries[i].backlog)
            && Ended(s.entries[i], t.entries[i], outcome, now, jitter)
  {
    hide Settle, TakeJobMeasure, WaitAfter;
    var s0 := s.(running := s.running - 1);
    JobMeasureEffect(s0, i, backlog);
    JobMeasureEntry(s0, i, backlog);
    var s1 := TakeJobMeasure(s0, i, backlog);
    SettleEffect(s1, i, outcome, now, jitter);
    Settled(s1, i, outcome, now, jitter);
  }

  lemma Settled(s: Sched, i: nat, outcome: Outcome, now: Time, jitter: real)
    requires Indexed(s) && i < |s.entries| && RetryDelay.Jitter(jitter)
    ensures Ended(s.entries[i], Settle(s, i, outcome, now, jitter).entries[i], outcome, now, jitter)
  {
    hide PushRetry, RetryDelay.Delay, RetryDelay.Cap, RetryDelay.Jittered;
    DelayIs(s.entries[i].failures + 1, jitter);
  }

  lemma DelayIs(failures: nat, jitter: real)
    requires RetryDelay.Jitter(jitter) && failures >= 1
    ensures WaitAfter(failures, jitter, RetryDelay.Delay(failures, jitter))
  {
    hide RetryDelay.Delay, RetryDelay.Cap, RetryDelay.Jittered;
    RetryDelay.ClosedForm(failures, jitter);
    RetryDelay.Bounds(failures, jitter);
  }

  // ---- the retry heap ----

  /** The users backing off, each once, by retry time and, at one time, in the order their jobs ended. */
  lemma RetryOrder(g: System, p: nat, q: nat)
    requires Reachable(g) && p < q < |g.s.retries|
    ensures g.s.retries[p] < |g.s.entries| && g.s.retries[q] < |g.s.entries|
    ensures var u, v := g.s.entries[g.s.retries[p]], g.s.entries[g.s.retries[q]];
            u.retryAt < v.retryAt || (u.retryAt == v.retryAt && u.seqNo < v.seqNo)
  {
    hide QueueOk, UsersOk, JobsOk, WaitersOk, HoldersOk, ChannelsOk, ChannelBounds, SleepersOk, TimersOk, WaitingOk;
    ReachableInv(g);
    assert Sorted(g.s.entries, g.s.retries);
    assert Before(g.s.entries, g.s.retries[p], g.s.retries[q]);
  }

  // ---- a measure outside a job ----

  /** A measure is taken by a known user nothing has measured whose job does not run, and by nobody else. */
  lemma MeasureTaken(g: System, key: Key, chars: int, g': System)
    requires Reachable(g) && Step(g, Measures(key, chars), g')
    ensures Known(g.s) && Known(g'.s)
    ensures var u := EntryOf(g.s, key);
            if u.Some? && !u.value.measured && !u.value.phase.Running? then
              && EntryOf(g'.s, key) == Some(u.value.(backlog := chars, measured := true))
              && (forall k :: k != key ==> EntryOf(g'.s, k) == EntryOf(g.s, k))
              && key in g'.s.measured && g'.s.changed == g.s.changed + 1 && g.s.changed in g'.closing
            else g' == g
  {
    hide SysInv, Inv, Reachable;
    ReachableInv(g);
    SysParts(g);
    InvKnown(g.s);
  }

  // ---- Run and Drain ----

  /** Drain sets its flag for good, and wakes everyone. */
  lemma DrainSets(g: System, g': System)
    requires Step(g, Drains, g')
    ensures g'.s.draining && g'.s.changed == g.s.changed + 1 && g.s.changed in g'.closing
    ensures g'.s.queue == g.s.queue && g'.s.entries == g.s.entries && g'.workers == g.workers
  {
    hide WellFormed;
  }

  /** Run's start puts every worker to work and lets Adds wait again; its end stops both and wakes everyone. */
  lemma RunSets(g: System, e: Event, g': System)
    requires Step(g, e, g') && (e.Starts? || e.Ends?)
    ensures e.Starts? ==>
              && !g.s.started && g'.s.started && !g'.s.stopped && |g'.workers| == |g.workers|
              && forall w :: 0 <= w < |g'.workers| ==> g'.workers[w] == Top
    ensures e.Ends? ==> !g'.s.started && g'.s.stopped && g'.s.changed == g.s.changed + 1 && g.s.changed in g'.closing
  {
    hide WellFormed;
  }

  lemma FlagsStep(g: System, e: Event, g': System)
    requires SysInv(g) && Step(g, e, g')
    ensures g.s.draining ==> g'.s.draining
    ensures g.s.stopped && !e.Starts? ==> g'.s.stopped
  {
    hide SysInv, Inv, Notify, WaitLoop, LeaveWait, Hold, Release, TakeNext, Measured, Finish;
    hide JobsOk, WaitersOk, HoldersOk, EnterWait;
    SysParts(g);
    SysThreads(g);
    match e {
      case Notifies(key, chars, now) => NotifyFlags(g.s, key, chars, now);
      case Waits(w, key, limit, now) =>
        if key in g.s.users {
          EnterFlags(g.s, g.s.users[key]);
          WaitFlags(EnterWait(g.s, g.s.users[key]), g.s.users[key], limit, now);
        }
      case WaiterWakes(w, gone) => WaitFlags(g.s, g.waiters[w].entry, g.waiters[w].limit, g.waiters[w].now);
      case Holds(h, key) => HoldFlags(g.s, key);
      case Releases(h) => ReleaseFlags(g.s, g.holders[h]);
      case Measures(key, chars) => MeasuredFlags(g.s, key, chars);
      case Looks(w) => NextFlags(g.s, g.workers[w].now);
      case Finishes(w, backlog, outcome, now, jitter) =>
        JobRuns(g, w);
        FinishEffect(g.s, g.workers[w].entry, backlog, outcome, now, jitter);
      case _ =>
    }
  }

  predicate SameFlags(s: Sched, t: Sched) {
    t.draining == s.draining && t.stopped == s.stopped
  }

  lemma EnterFlags(s: Sched, i: nat)
    requires i < |s.entries|
    ensures SameFlags(s, EnterWait(s, i)) && |EnterWait(s, i).entries| == |s.entries|
  {
  }

  lemma WaitFlags(s: Sched, i: nat, limit: int, now: Time)
    requires i < |s.entries|
    ensures SameFlags(s, WaitLoop(s, i, limit, now).0) && SameFlags(s, LeaveWait(s, i))
  {
  }

  lemma HoldFlags(s: Sched, key: Key)
    requires key in s.users ==> s.users[key] < |s.entries|
    ensures SameFlags(s, Hold(s, key))
  {
  }

  lemma ReleaseFlags(s: Sched, i: nat)
    requires i < |s.entries|
    ensures SameFlags(s, Release(s, i))
  {
  }

  lemma MeasuredFlags(s: Sched, key: Key, chars: int)
    requires key in s.users ==> s.users[key] < |s.entries|
    ensures SameFlags(s, Measured(s, key, chars))
  {
  }

  lemma NextFlags(s: Sched, now: Time)
    requires Inv(s)
    ensures Indexed(s) && SameFlags(s, TakeNext(s, now).0)
  {
    hide Inv, RetryDue, FirstUnheld;
    InvIndexed(s);
    if !s.draining {
      RetryDueEffect(s, now);
    }
  }

  /** b comes after a Drain, or after the end of a Run with no Run begun since. */
  ghost predicate NobodyWaits(events: seq<Event>, a: nat, b: nat) {
    && a < b <= |events|
    && (events[a].Drains? || (events[a].Ends? && forall c :: a < c < b ==> !events[c].Starts?))
  }

  lemma {:induction false} FlagLasts(states: seq<System>, events: seq<Event>, a: nat, b: nat)
    requires IsRun(states, events) && Start0(states[0]) && NobodyWaits(events, a, b)
    ensures if events[a].Drains? then states[b].s.draining else states[b].s.stopped
  {
    hide SysInv, Step, Start0;
    assert Step(states[b - 1], events[b - 1], states[b - 1 + 1]);
    if b == a + 1 {
      if events[a].Drains? {
        DrainSets(states[a], states[b]);
      } else {
        RunSets(states[a], events[a], states[b]);
      }
    } else {
      FlagLasts(states, events, a, b - 1);
      RunInv(states, events, b - 1);
      FlagsStep(states[b - 1], events[b - 1], states[b]);
    }
  }

  /**
   After a Drain, and from the end of a Run to the start of the next, an Add
   that calls WaitBacklog or wakes in it returns, whoever still sleeps in it
   has a channel that was replaced, and after a Drain no job begins.
   */
  lemma AddsReturn(states: seq<System>, events: seq<Event>, a: nat, b: nat)
    requires IsRun(states, events) && Start0(states[0]) && NobodyWaits(events, a, b)
    ensures forall w :: w in states[b].waiters ==> states[b].waiters[w].ch < states[b].s.changed
    ensures b < |events| && (events[b].WaiterWakes? || events[b].Waits?) ==> events[b].w !in states[b + 1].waiters
    ensures b < |events| && events[a].Drains? ==> !StartsAJob(states[b], events[b], states[b + 1])
  {
    hide SysInv, Step, Start0, MayReturn, StartsAJob;
    FlagLasts(states, events, a, b);
    RunInv(states, events, b);
    NoneCurrent(states[b]);
    if b < |events| {
      assert Step(states[b], events[b], states[b + 1]);
      Stopped(states[b], events[b], states[b + 1]);
    }
  }

  lemma NoneCurrent(g: System)
    requires SysInv(g) && (g.s.stopped || g.s.draining)
    ensures forall w :: w in g.waiters ==> g.waiters[w].ch < g.s.changed
  {
    hide Inv, JobsOk, HoldersOk, SleepersOk, TimersOk;
  }

  lemma Stopped(g: System, e: Event, g': System)
    requires SysInv(g) && Step(g, e, g') && (g.s.stopped || g.s.draining)
    ensures e.WaiterWakes? || e.Waits? ==> e.w !in g'.waiters
    ensures g.s.draining ==> !StartsAJob(g, e, g')
  {
    hide SysInv, Inv, LeaveWait, Hold, Release, Notify, Finish, RetryDue, Measured;
    SysParts(g);
  }
}
