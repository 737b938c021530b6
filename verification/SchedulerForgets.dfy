/**
 Who the scheduler keeps an entry for: nobody without work, hold, waiting Add
 or backlog, but for a user an Add has just measured at 0.
 */
module SchedulerForgets {
  import opened Common
  import opened SchedulerState
  import opened SchedulerInvariant
  import opened SchedulerSystem
  import opened SchedulerEffects
  import opened SchedulerRuns
  import opened SchedulerViews
  import opened SchedulerTheorems

  /** `users` has an entry for k that nothing needs. */
  ghost predicate Spare(s: Sched, k: Key) {
    && k in s.users && s.users[k] < |s.entries|
    && var u := s.entries[s.users[k]];
    && u.phase.Idle? && u.holds == 0 && u.waiters == 0 && u.backlog <= 0
  }

  ghost predicate NoMoreSpare(s: Sched, t: Sched) {
    forall k :: Spare(t, k) ==> Spare(s, k)
  }

  /** Entry i is changed to u, and forgotten if nothing needs it. */
  lemma ForgetSpares(s: Sched, i: nat, u: User)
    requires Known(s) && i < |s.entries| && u.key == s.entries[i].key && u.key in s.users && s.users[u.key] == i
    ensures Known(Forget(Put(s, i, u), i)) && NoMoreSpare(s, Forget(Put(s, i, u), i))
  {
  }

  lemma PutSpares(s: Sched, i: nat, u: User)
    requires Known(s) && i < |s.entries| && u.key == s.entries[i].key && u.key in s.users && s.users[u.key] == i
    requires !u.phase.Idle? || u.holds > 0 || u.waiters > 0
    ensures Known(Put(s, i, u)) && NoMoreSpare(s, Put(s, i, u))
  {
  }

  lemma SameSpares(s: Sched, t: Sched)
    requires Known(s) && t.users == s.users && t.entries == s.entries
    ensures Known(t) && NoMoreSpare(s, t)
  {
  }

  lemma NotifySpares(s: Sched, key: Key, chars: int, now: Time)
    requires Known(s)
    ensures Known(Notify(s, key, chars, now)) && NoMoreSpare(s, Notify(s, key, chars, now))
  {
    hide Told, Know;
    if !Full(s, key) {
      var s1 := Know(s, key);
      KnowSpares(s, key);
      ToldEntry(s1, s1.users[key], chars, now);
      ToldBusy(s1, s1.users[key], chars, now);
    }
  }

  lemma ToldBusy(s: Sched, i: nat, chars: int, now: Time)
    requires i < |s.entries|
    ensures Told(s, i, chars, now).entries[i].phase != Idle
  {
  }

  lemma KnowSpares(s: Sched, key: Key)
    requires Known(s)
    ensures Known(Know(s, key)) && key in Know(s, key).users
    ensures forall k :: k != key && Spare(Know(s, key), k) ==> Spare(s, k)
  {
  }

  lemma LeaveWaitSpares(s: Sched, i: nat)
    requires Inv(s) && i < |s.entries| && s.entries[i].waiters > 0
    ensures Known(s) && Known(LeaveWait(s, i)) && NoMoreSpare(s, LeaveWait(s, i))
  {
    hide Inv, Forget, NoMoreSpare;
    InvKnown(s);
    EntryInv(s, i);
    ForgetSpares(s, i, s.entries[i].(waiters := s.entries[i].waiters - 1));
  }

  lemma WaitLoopSpares(s: Sched, i: nat, limit: int, now: Time)
    requires Inv(s) && i < |s.entries| && s.entries[i].waiters > 0
    ensures Known(s) && Known(WaitLoop(s, i, limit, now).0) && NoMoreSpare(s, WaitLoop(s, i, limit, now).0)
  {
    hide Inv, LeaveWait;
    InvKnown(s);
    EntryInv(s, i);
    LeaveWaitSpares(s, i);
    PutSpares(s, i, s.entries[i].(phase := Queued, since := Some(now)));
  }

  lemma WaitsSpares(s: Sched, key: Key, limit: int, now: Time)
    requires Inv(s) && key in s.users
    ensures Known(s) && s.users[key] < |s.entries|
    ensures var t := WaitLoop(EnterWait(s, s.users[key]), s.users[key], limit, now).0;
            Known(t) && NoMoreSpare(s, t)
  {
    hide Inv, WaitLoop;
    InvKnown(s);
    var i := s.users[key];
    EnterWaitInv(s, key);
    EntryInv(s, i);
    PutSpares(s, i, s.entries[i].(waiters := s.entries[i].waiters + 1));
    WaitLoopSpares(EnterWait(s, i), i, limit, now);
  }

  lemma HoldSpares(s: Sched, key: Key)
    requires Inv(s)
    ensures Known(s) && Known(Hold(s, key)) && NoMoreSpare(s, Hold(s, key))
  {
    hide Inv, Know;
    InvKnown(s);
    KnowInv(s, key);
    KnowSpares(s, key);
    var s1 := Know(s, key);
    EntryInv(s1, s1.users[key]);
    PutSpares(s1, s1.users[key], s1.entries[s1.users[key]].(holds := s1.entries[s1.users[key]].holds + 1));
  }

  lemma ReleaseSpares(s: Sched, i: nat)
    requires Inv(s) && i < |s.entries| && s.entries[i].holds > 0
    ensures Known(s) && Known(Release(s, i)) && NoMoreSpare(s, Release(s, i))
  {
    hide Inv, Forget, NoMoreSpare;
    InvKnown(s);
    EntryInv(s, i);
    ForgetSpares(s, i, s.entries[i].(holds := s.entries[i].holds - 1));
    var s1 := Forget(Put(s, i, s.entries[i].(holds := s.entries[i].holds - 1)), i);
    SameSpares(s1, Release(s, i));
    SpareTrans(s, s1, Release(s, i));
  }

  lemma MeasuredSpares(s: Sched, key: Key, chars: int)
    requires Known(s) && chars >= 0
    ensures Known(Measured(s, key, chars))
    ensures forall k :: Spare(Measured(s, key, chars), k) ==> Spare(s, k) || (k == key && chars == 0)
  {
  }

  lemma NextSpares(s: Sched, now: Time)
    requires Inv(s)
    ensures Indexed(s) && Known(s) && Known(TakeNext(s, now).0) && NoMoreSpare(s, TakeNext(s, now).0)
  {
    hide Inv, RetryDue, FirstUnheld;
    InvIndexed(s);
    InvKnown(s);
    if !s.draining {
      RetryDueEffect(s, now);
      MovedSpares(s, RetryDue(s, now));
    }
  }

  lemma MovedSpares(s: Sched, t: Sched)
    requires Known(s) && Moved(s, t)
    ensures Known(t) && NoMoreSpare(s, t)
  {
  }

  lemma FinishSpares(s: Sched, i: nat, backlog: int, outcome: Outcome, now: Time, jitter: real)
    requires Inv(s) && i < |s.entries| && s.entries[i].phase.Running?
    ensures Indexed(s) && Known(s)
    ensures var t := Finish(s, i, backlog, outcome, now, jitter);
            Known(t) && NoMoreSpare(s, t)
  {
    hide Inv, Settle, TakeJobMeasure, Forget, NoMoreSpare, Known;
    InvIndexed(s);
    InvKnown(s);
    EntryInv(s, i);
    FinishEntry(s, i, backlog, outcome, now, jitter);
    var s2 := Settle(TakeJobMeasure(s.(running := s.running - 1), i, backlog), i, outcome, now, jitter);
    ForgetSpares(s, i, s2.entries[i]);
    ForgetSame(Put(s, i, s2.entries[i]), s2, i);
    SameSpares(Forget(Put(s, i, s2.entries[i]), i), Finish(s, i, backlog, outcome, now, jitter));
    SpareTrans(s, Forget(Put(s, i, s2.entries[i]), i), Finish(s, i, backlog, outcome, now, jitter));
  }

  lemma ForgetSame(s: Sched, t: Sched, i: nat)
    requires i < |s.entries| && t.entries == s.entries && t.users == s.users
    ensures Forget(t, i).users == Forget(s, i).users && Forget(t, i).entries == Forget(s, i).entries
  {
  }

  lemma SpareTrans(s: Sched, t: Sched, u: Sched)
    requires NoMoreSpare(s, t) && NoMoreSpare(t, u)
    ensures NoMoreSpare(s, u)
  {
  }

  /** One step leaves no entry that nothing needs, but for the entry of a user measured at 0. */
  lemma SpareStep(g: System, e: Event, g': System, k: Key)
    requires SysInv(g) && Step(g, e, g') && Spare(g'.s, k)
    ensures Spare(g.s, k) || e == Measures(k, 0)
  {
    hide SysInv, Inv, Notify, WaitLoop, LeaveWait, Hold, Release, TakeNext, Measured, Finish, Known, Spare, EnterWait;
    hide JobsOk, WaitersOk, HoldersOk, ChannelBounds;
    SysParts(g);
    SysThreads(g);
    InvKnown(g.s);
    match e {
      case Notifies(key, chars, now) => NotifySpares(g.s, key, chars, now);
      case Waits(w, key, limit, now) =>
        if key in g.s.users {
          WaitsSpares(g.s, key, limit, now);
        }
      case WaiterWakes(w, gone) =>
        WaiterCount(g, w);
        LeaveWaitSpares(g.s, g.waiters[w].entry);
        WaitLoopSpares(g.s, g.waiters[w].entry, g.waiters[w].limit, g.waiters[w].now);
      case Holds(h, key) => HoldSpares(g.s, key);
      case Releases(h) =>
        HeldCount(g, h);
        ReleaseSpares(g.s, g.holders[h]);
      case Measures(key, chars) => MeasuredSpares(g.s, key, chars);
      case Looks(w) => NextSpares(g.s, g.workers[w].now);
      case Finishes(w, backlog, outcome, now, jitter) =>
        JobRuns(g, w);
        FinishSpares(g.s, g.workers[w].entry, backlog, outcome, now, jitter);
      case _ => SameSpares(g.s, g'.s);
    }
  }

  /**
   The scheduler keeps an entry nothing needs only for a user an Add measured
   at 0, and has kept it, unneeded, ever since.
   */
  lemma {:induction false} ForgetsUnneeded(states: seq<System>, events: seq<Event>, i: nat, k: Key)
    requires IsRun(states, events) && Start0(states[0]) && i <= |events|
    requires Spare(states[i].s, k)
    ensures exists j :: 0 <= j < i && events[j] == Measures(k, 0)
                        && forall m :: j < m <= i ==> Spare(states[m].s, k)
  {
    hide SysInv, Step, Spare, Known;
    if i == 0 {
      NoneSpare(states[0], k);
    } else {
      RunInv(states, events, i - 1);
      assert Step(states[i - 1], events[i - 1], states[i - 1 + 1]);
      SpareStep(states[i - 1], events[i - 1], states[i], k);
      if events[i - 1] != Measures(k, 0) {
        ForgetsUnneeded(states, events, i - 1, k);
      }
    }
  }

  lemma NoneSpare(g: System, k: Key)
    requires Start0(g)
    ensures !Spare(g.s, k)
  {
  }
}
