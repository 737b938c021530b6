/**
 What each section does to one user's record, by key: what is written of it
 does not depend on whether the scheduler still has an entry for it.
 */
module SchedulerViews {
  import opened Common
  import opened SchedulerState
  import opened SchedulerInvariant
  import opened SchedulerEffects

  datatype View = View(
    phase: Phase, backlog: int, added: int, dirty: bool, failures: nat, since: Option<Time>, dirtySince: Option<Time>)

  function Unknown(): View {
    View(Idle, 0, 0, false, 0, None, None)
  }

  function OfEntry(u: User): View {
    View(u.phase, u.backlog, u.added, u.dirty, u.failures, u.since, u.dirtySince)
  }

  function ViewOf(s: Sched, k: Key): View
    requires k in s.users ==> s.users[k] < |s.entries|
  {
    if k in s.users then OfEntry(s.entries[s.users[k]]) else Unknown()
  }

  ghost predicate Known(s: Sched) {
    forall k :: k in s.users ==> s.users[k] < |s.entries| && s.entries[s.users[k]].key == k
  }

  /** Only the view of `key` changes from s to t, and to v. */
  ghost predicate OnlyView(s: Sched, t: Sched, key: Key, v: View)
    requires Known(s) && Known(t)
  {
    ViewOf(t, key) == v && forall k :: k != key ==> ViewOf(t, k) == ViewOf(s, k)
  }

  ghost predicate SameViews(s: Sched, t: Sched)
    requires Known(s) && Known(t)
  {
    forall k :: ViewOf(t, k) == ViewOf(s, k)
  }

  lemma InvKnown(s: Sched)
    requires Inv(s)
    ensures Known(s)
  {
  }

  lemma SameTables(s: Sched, t: Sched)
    requires Known(s) && t.users == s.users && t.entries == s.entries
    ensures Known(t) && SameViews(s, t)
  {
  }

  lemma PutView(s: Sched, i: nat, u: User)
    requires Known(s) && i < |s.entries| && u.key == s.entries[i].key && u.key in s.users && s.users[u.key] == i
    ensures Known(Put(s, i, u)) && OnlyView(s, Put(s, i, u), u.key, OfEntry(u))
  {
  }

  lemma ForgetView(s: Sched, i: nat)
    requires Known(s) && i < |s.entries| && Coherent(s.entries[i])
    ensures Known(Forget(s, i)) && SameViews(s, Forget(s, i))
  {
  }

  lemma KnowView(s: Sched, key: Key)
    requires Known(s)
    ensures Known(Know(s, key)) && SameViews(s, Know(s, key)) && key in Know(s, key).users
  {
  }

  // ---- the sections ----

  function ToldView(v: View, chars: int, now: Time): View {
    var v1 := v.(backlog := v.backlog + chars);
    match v.phase
    case Idle => v1.(phase := Queued, since := Some(now))
    case Running =>
      var v2 := v1.(added := v.added + chars);
      if v.dirty then v2 else v2.(dirty := true, dirtySince := Some(now))
    case _ => v1
  }

  lemma ToldEntry(s: Sched, i: nat, chars: int, now: Time)
    requires i < |s.entries|
    ensures var t := Told(s, i, chars, now);
            && t.users == s.users && |t.entries| == |s.entries| && t.entries == s.entries[i := t.entries[i]]
            && t.entries[i].key == s.entries[i].key
            && OfEntry(t.entries[i]) == ToldView(OfEntry(s.entries[i]), chars, now)
  {
    match s.entries[i].phase
    case Idle =>
    case Queued =>
    case Running =>
    case BackingOff =>
  }

  lemma ToldViews(s: Sched, i: nat, chars: int, now: Time)
    requires Known(s) && i < |s.entries| && s.entries[i].key in s.users && s.users[s.entries[i].key] == i
    ensures Known(Told(s, i, chars, now))
    ensures OnlyView(s, Told(s, i, chars, now), s.entries[i].key, ToldView(ViewOf(s, s.entries[i].key), chars, now))
  {
    hide Told, ToldView;
    ToldEntry(s, i, chars, now);
    PutView(s, i, Told(s, i, chars, now).entries[i]);
  }

  /** What a notification of key meets: a user with work, or room for one more. */
  predicate Accepts(s: Sched, key: Key)
    requires key in s.users ==> s.users[key] < |s.entries|
  {
    || (key in s.users && !s.entries[s.users[key]].phase.Idle?)
    || |s.queue| + s.running + |s.retries| < s.maxUsers
  }

  lemma NotifyView(s: Sched, key: Key, chars: int, now: Time)
    requires Known(s)
    ensures Known(Notify(s, key, chars, now))
    ensures !Accepts(s, key) ==> Notify(s, key, chars, now) == s
    ensures Accepts(s, key) ==>
              OnlyView(s, Notify(s, key, chars, now), key, ToldView(ViewOf(s, key), chars, now))
  {
    hide Told, Know;
    if Accepts(s, key) {
      KnowView(s, key);
      ToldViews(Know(s, key), Know(s, key).users[key], chars, now);
    }
  }

  lemma LeaveWaitView(s: Sched, i: nat)
    requires Inv(s) && i < |s.entries| && s.entries[i].waiters > 0
    ensures Known(s) && Known(LeaveWait(s, i)) && SameViews(s, LeaveWait(s, i))
  {
    hide Inv, Forget;
    InvKnown(s);
    EntryInv(s, i);
    var u := s.entries[i].(waiters := s.entries[i].waiters - 1);
    PutView(s, i, u);
    ForgetView(Put(s, i, u), i);
  }

  /** The wait queues its user: the user is idle, its backlog over the limit, and a job may be queued. */
  predicate WaitQueues(s: Sched, i: nat, limit: int)
    requires i < |s.entries|
  {
    && s.entries[i].phase.Idle? && s.entries[i].backlog > limit && !s.stopped && !s.draining
    && |s.queue| + s.running + |s.retries| < s.maxUsers
  }

  lemma WaitLoopView(s: Sched, i: nat, limit: int, now: Time)
    requires Inv(s) && i < |s.entries| && s.entries[i].waiters > 0
    ensures Known(s) && Known(WaitLoop(s, i, limit, now).0)
    ensures WaitQueues(s, i, limit) ==>
              OnlyView(s, WaitLoop(s, i, limit, now).0, s.entries[i].key, ToldView(ViewOf(s, s.entries[i].key), 0, now))
    ensures !WaitQueues(s, i, limit) ==> SameViews(s, WaitLoop(s, i, limit, now).0)
  {
    hide Inv, LeaveWait;
    InvKnown(s);
    EntryInv(s, i);
    LeaveWaitView(s, i);
    if WaitQueues(s, i, limit) {
      PutView(s, i, s.entries[i].(phase := Queued, since := Some(now)));
    }
  }

  lemma EnterWaitView(s: Sched, key: Key)
    requires Inv(s) && key in s.users
    ensures Known(s) && Known(EnterWait(s, s.users[key])) && SameViews(s, EnterWait(s, s.users[key]))
  {
    hide Inv;
    InvKnown(s);
    PutView(s, s.users[key], s.entries[s.users[key]].(waiters := s.entries[s.users[key]].waiters + 1));
  }

  lemma HoldView(s: Sched, key: Key)
    requires Known(s)
    ensures Known(Hold(s, key)) && SameViews(s, Hold(s, key))
  {
    hide Know;
    KnowView(s, key);
    var s1 := Know(s, key);
    PutView(s1, s1.users[key], s1.entries[s1.users[key]].(holds := s1.entries[s1.users[key]].holds + 1));
  }

  lemma ReleaseView(s: Sched, i: nat)
    requires Inv(s) && i < |s.entries| && s.entries[i].holds > 0
    ensures Known(s) && Known(Release(s, i)) && SameViews(s, Release(s, i))
  {
    hide Inv, Forget;
    InvKnown(s);
    EntryInv(s, i);
    var u := s.entries[i].(holds := s.entries[i].holds - 1);
    PutView(s, i, u);
    ForgetView(Put(s, i, u), i);
  }

  lemma MeasuredView(s: Sched, key: Key, chars: int)
    requires Known(s)
    ensures Known(Measured(s, key, chars))
    ensures TakesMeasure(s, key) ==>
              OnlyView(s, Measured(s, key, chars), key, ViewOf(s, key).(backlog := chars))
    ensures !TakesMeasure(s, key) ==> Measured(s, key, chars) == s
  {
    if TakesMeasure(s, key) {
      PutView(s, s.users[key], s.entries[s.users[key]].(backlog := chars, measured := true));
    }
  }

  /** A retry that falls due goes from backing off to queued, and changes nothing else of its user. */
  predicate Falls(v: View, v': View) {
    v' == v || (v.phase.BackingOff? && v' == v.(phase := Queued))
  }

  lemma MovedViews(s: Sched, t: Sched)
    requires Known(s) && Moved(s, t)
    ensures Known(t) && forall k :: Falls(ViewOf(s, k), ViewOf(t, k))
  {
  }

  function StartView(v: View): View {
    v.(phase := Running, added := 0, dirty := false, dirtySince := None)
  }

  lemma StartViews(s: Sched, p: nat)
    requires Inv(s) && p < |s.queue|
    ensures s.queue[p] < |s.entries| && Known(s) && Known(Start(s, p))
    ensures ViewOf(s, s.entries[s.queue[p]].key).phase.Queued?
    ensures OnlyView(s, Start(s, p), s.entries[s.queue[p]].key, StartView(ViewOf(s, s.entries[s.queue[p]].key)))
  {
    InvKnown(s);
    var i := s.queue[p];
    assert i in s.queue;
    EntryInv(s, i);
    hide Inv;
    PutView(s, i, Start(s, p).entries[i]);
  }

  /** next starts a user that was queued or whose backoff has ended, or starts none. */
  lemma TakeNextView(s: Sched, now: Time)
    requires Inv(s)
    ensures Indexed(s) && Known(s) && Known(TakeNext(s, now).0)
    ensures var (t, n) := TakeNext(s, now);
            && (n.Runs? ==>
                && n.entry < |s.entries|
                && var key := s.entries[n.entry].key;
                && (ViewOf(s, key).phase.Queued? || ViewOf(s, key).phase.BackingOff?)
                && ViewOf(t, key) == StartView(ViewOf(s, key))
                && forall k :: k != key ==> Falls(ViewOf(s, k), ViewOf(t, k)))
            && (!n.Runs? ==> forall k :: Falls(ViewOf(s, k), ViewOf(t, k)))
  {
    hide Inv, Moved, Start, RetryDue, FirstUnheld;
    InvIndexed(s);
    InvKnown(s);
    if !s.draining {
      RetryDueEffect(s, now);
      var s1 := RetryDue(s, now);
      MovedViews(s, s1);
      MovedKeys(s, s1);
      InvIndexed(s1);
      if FirstUnheld(s1, 0) < |s1.queue| {
        StartViews(s1, FirstUnheld(s1, 0));
      }
    }
  }

  lemma MovedKeys(s: Sched, t: Sched)
    requires Moved(s, t)
    ensures |t.entries| == |s.entries| && forall i :: 0 <= i < |s.entries| ==> t.entries[i].key == s.entries[i].key
  {
  }

  function DoneView(v: View, backlog: int, outcome: Outcome): View {
    var v1 := v.(backlog := if backlog >= 0 then backlog + v.added else v.backlog, added := 0,
                 dirty := false, dirtySince := None);
    match outcome
    case JobCanceled => v1.(phase := Queued)
    case JobOk =>
      if v.dirty then v1.(phase := Queued, since := v.dirtySince, failures := 0)
      else v1.(phase := Idle, since := None, failures := 0)
    case _ => v1.(phase := BackingOff, failures := v.failures + 1)
  }

  lemma SettleEntry(s: Sched, i: nat, outcome: Outcome, now: Time, jitter: real)
    requires Indexed(s) && i < |s.entries| && s.entries[i].added == 0
    ensures OfEntry(Settle(s, i, outcome, now, jitter).entries[i]) == DoneView(OfEntry(s.entries[i]), -1, outcome)
  {
    hide PushRetry;
    match outcome
    case JobCanceled =>
    case JobOk =>
    case JobFailed =>
    case JobPaused =>
  }

  lemma FinishView(s: Sched, i: nat, backlog: int, outcome: Outcome, now: Time, jitter: real)
    requires Inv(s) && i < |s.entries| && s.entries[i].phase.Running?
    ensures Indexed(s) && Known(s) && Known(Finish(s, i, backlog, outcome, now, jitter))
    ensures var key := s.entries[i].key;
            && ViewOf(s, key) == OfEntry(s.entries[i])
            && OnlyView(s, Finish(s, i, backlog, outcome, now, jitter), key, DoneView(ViewOf(s, key), backlog, outcome))
  {
    hide Inv, Settle, TakeJobMeasure, Forget, OnlyView, SameViews, Known, ViewOf, DoneView, Coherent;
    InvIndexed(s);
    InvKnown(s);
    EntryInv(s, i);
    var s2 := Settle(TakeJobMeasure(s.(running := s.running - 1), i, backlog), i, outcome, now, jitter);
    FinishEntry(s, i, backlog, outcome, now, jitter);
    DoneForgettable(s.entries[i], s2.entries[i], backlog, outcome);
    ViewsAfter(s, s2, i);
    OwnView(s, i);
  }

  lemma OwnView(s: Sched, i: nat)
    requires Known(s) && i < |s.entries| && s.entries[i].key in s.users && s.users[s.entries[i].key] == i
    ensures ViewOf(s, s.entries[i].key) == OfEntry(s.entries[i])
  {
  }

  /** The job's entry, once its end is settled. */
  lemma FinishEntry(s: Sched, i: nat, backlog: int, outcome: Outcome, now: Time, jitter: real)
    requires Indexed(s) && i < |s.entries|
    ensures var s2 := Settle(TakeJobMeasure(s.(running := s.running - 1), i, backlog), i, outcome, now, jitter);
            && s2.entries == s.entries[i := s2.entries[i]] && s2.users == s.users && |s2.entries| == |s.entries|
            && s2.entries[i].key == s.entries[i].key
            && OfEntry(s2.entries[i]) == DoneView(OfEntry(s.entries[i]), backlog, outcome)
  {
    hide Settle, TakeJobMeasure;
    var s0 := s.(running := s.running - 1);
    var s1 := TakeJobMeasure(s0, i, backlog);
    JobMeasureEffect(s0, i, backlog);
    JobMeasureEntry(s0, i, backlog);
    SettleEntry(s1, i, outcome, now, jitter);
    SettleEffect(s1, i, outcome, now, jitter);
  }

  /** An entry changed, forgotten if due, and the channel replaced: only its own view changes. */
  lemma ViewsAfter(s: Sched, s2: Sched, i: nat)
    requires Known(s) && i < |s.entries| && s.entries[i].key in s.users && s.users[s.entries[i].key] == i
    requires s2.users == s.users && |s2.entries| == |s.entries| && s2.entries == s.entries[i := s2.entries[i]]
    requires s2.entries[i].key == s.entries[i].key
    requires (Forgettable(s2.entries[i]) ==> OfEntry(s2.entries[i]) == Unknown())
    ensures Known(Bump(Forget(s2, i))) && OnlyView(s, Bump(Forget(s2, i)), s.entries[i].key, OfEntry(s2.entries[i]))
  {
    hide Forgettable;
    assert Known(s2);
  }

  /** An entry that is forgotten says no more than an unknown one. */
  lemma DoneForgettable(u: User, v: User, backlog: int, outcome: Outcome)
    requires Coherent(u) && u.phase.Running? && OfEntry(v) == DoneView(OfEntry(u), backlog, outcome)
    ensures Forgettable(v) ==> OfEntry(v) == Unknown()
  {
  }

  lemma JobMeasureEntry(s: Sched, i: nat, backlog: int)
    requires Indexed(s) && i < |s.entries|
    ensures var u := s.entries[i];
            var v := TakeJobMeasure(s, i, backlog).entries[i];
            && v.added == 0 && v.backlog == (if backlog >= 0 then backlog + u.added else u.backlog)
            && OfEntry(v) == OfEntry(u).(backlog := v.backlog, added := 0)
  {
  }
}
