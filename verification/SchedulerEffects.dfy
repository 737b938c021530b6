/** What each section changes of what workers, waiters and Searches rely on. */
module SchedulerEffects {
  import opened Common
  import opened SchedulerState
  import opened SchedulerInvariant
  import opened SchedulerSystem

  /** SameJobs, SameWaits and SameHolds together. */
  ghost predicate SameAll(es: seq<User>, fs: seq<User>) {
    SameJobs(es, fs) && SameWaits(es, fs) && SameHolds(es, fs)
  }

  lemma KnowEffect(s: Sched, key: Key)
    requires key in s.users ==> s.users[key] < |s.entries|
    ensures SameAll(s.entries, Know(s, key).entries)
  {
  }

  lemma ToldEffect(s: Sched, i: nat, chars: int, now: Time)
    requires i < |s.entries|
    ensures |Told(s, i, chars, now).entries| == |s.entries|
    ensures SameAll(s.entries, Told(s, i, chars, now).entries) && Told(s, i, chars, now).changed == s.changed
  {
    assert forall j :: 0 <= j < |s.entries| && j != i ==> Told(s, i, chars, now).entries[j] == s.entries[j];
  }

  lemma NotifyEffect(s: Sched, key: Key, chars: int, now: Time, clock: Time)
    requires Inv(s) && chars >= 0
    ensures Indexed(s)
    ensures Smooth(s, Notify(s, key, chars, now), clock) && SameAll(s.entries, Notify(s, key, chars, now).entries)
  {
    hide Inv, Told, Know;
    InvIndexed(s);
    NotifyInv(s, key, chars, now);
    InvIndexed(Notify(s, key, chars, now));
    if !Full(s, key) {
      KnowInv(s, key);
      KnowEffect(s, key);
      KnowChannel(s, key);
      ToldEffect(Know(s, key), Know(s, key).users[key], chars, now);
    }
  }

  lemma KnowChannel(s: Sched, key: Key)
    ensures Know(s, key).changed == s.changed
  {
  }

  lemma MeasuredEffect(s: Sched, key: Key, chars: int, clock: Time)
    requires Inv(s) && chars >= 0
    ensures Indexed(s)
    ensures Smooth(s, Measured(s, key, chars), clock) && SameAll(s.entries, Measured(s, key, chars).entries)
  {
    hide Inv;
    InvIndexed(s);
    MeasuredInv(s, key, chars);
    InvIndexed(Measured(s, key, chars));
  }

  lemma WaitLoopEffect(s: Sched, i: nat, limit: int, now: Time, clock: Time)
    requires Inv(s) && i < |s.entries| && s.entries[i].waiters > 0
    ensures Indexed(s)
    ensures var (t, next) := WaitLoop(s, i, limit, now);
            && Smooth(s, t, clock) && SameJobs(s.entries, t.entries) && SameHolds(s.entries, t.entries)
            && (next.Sleep? ==>
                SameWaits(s.entries, t.entries) && next.channel == t.changed
                && KeepsWaiting(t, i, limit) && !t.entries[i].phase.Idle?)
            && (next.Return? ==> t.changed == s.changed && SameWaits(OneLess(s.entries, i), t.entries))
  {
    hide Inv;
    InvIndexed(s);
    var (t, next) := WaitLoop(s, i, limit, now);
    if next.Return? {
      LeaveWaitEffect(s, i, clock);
    } else if s.entries[i].phase.Idle? {
      WaitLoopInv(s, i, limit, now);
      InvIndexed(t);
      assert forall j :: 0 <= j < |s.entries| && j != i ==> t.entries[j] == s.entries[j];
    }
  }

  function OneLess(es: seq<User>, i: nat): seq<User>
    requires i < |es|
  {
    es[i := es[i].(waiters := es[i].waiters - 1)]
  }

  lemma LeaveWaitEffect(s: Sched, i: nat, clock: Time)
    requires Inv(s) && i < |s.entries| && s.entries[i].waiters > 0
    ensures Indexed(s)
    ensures var t := LeaveWait(s, i);
            && Smooth(s, t, clock) && t.changed == s.changed && SameJobs(s.entries, t.entries)
            && SameHolds(s.entries, t.entries)
            && SameWaits(OneLess(s.entries, i), t.entries)
  {
    hide Inv;
    InvIndexed(s);
    LeaveWaitInv(s, i);
    InvIndexed(LeaveWait(s, i));
  }

  lemma EnterWaitEffect(s: Sched, i: nat, clock: Time)
    requires Indexed(s) && i < |s.entries|
    ensures var t := EnterWait(s, i);
            && Smooth(s, t, clock) && t.changed == s.changed && SameJobs(s.entries, t.entries)
            && SameHolds(s.entries, t.entries)
            && t.entries == s.entries[i := s.entries[i].(waiters := s.entries[i].waiters + 1)]
  {
  }

  lemma KnowSmooth(s: Sched, key: Key, clock: Time)
    requires Indexed(s)
    ensures Indexed(Know(s, key)) && Know(s, key).changed == s.changed
    ensures Quiet(s, Know(s, key), clock) && Calm(s, Know(s, key))
  {
  }

  lemma HeldSmooth(s: Sched, i: nat, clock: Time)
    requires Indexed(s) && i < |s.entries| && s.entries[i].holds >= 0
    ensures var t := Put(s, i, s.entries[i].(holds := s.entries[i].holds + 1));
            && Indexed(t) && Quiet(s, t, clock) && Calm(s, t)
            && SameJobs(s.entries, t.entries) && SameWaits(s.entries, t.entries)
  {
  }

  /** Hold adds one hold to key's entry, made if need be, and nothing else anyone relies on. */
  lemma HoldEffect(s: Sched, key: Key, clock: Time)
    requires Inv(s)
    ensures Indexed(s)
    ensures var t := Hold(s, key);
            && Smooth(s, t, clock) && t.changed == s.changed && SameJobs(s.entries, t.entries)
            && SameWaits(s.entries, t.entries)
            && key in t.users && t.users[key] < |t.entries|
            && (forall j :: 0 <= j < |t.entries| ==>
                t.entries[j].holds == (if j < |s.entries| then s.entries[j].holds else 0)
                  + (if j == t.users[key] then 1 else 0))
  {
    hide Inv, Quiet, Calm;
    InvIndexed(s);
    KnowInv(s, key);
    KnowSmooth(s, key, clock);
    KnowEffect(s, key);
    var s1 := Know(s, key);
    var i := s1.users[key];
    EntryInv(s1, i);
    HeldSmooth(s1, i, clock);
    SmoothTrans(s, s1, Hold(s, key), clock);
  }

  lemma SmoothTrans(s: Sched, t: Sched, u: Sched, clock: Time)
    requires Indexed(s) && Indexed(t) && Indexed(u)
    requires Quiet(s, t, clock) && Calm(s, t) && Quiet(t, u, clock) && Calm(t, u)
    requires t.queue == s.queue && t.retries == s.retries
    requires forall i :: 0 <= i < |s.entries| <= |t.entries| ==> t.entries[i] == s.entries[i]
    ensures Quiet(s, u, clock) && Calm(s, u)
  {
  }

  lemma ReleaseEffect(s: Sched, i: nat, clock: Time)
    requires Inv(s) && i < |s.entries| && s.entries[i].holds > 0
    ensures Indexed(s)
    ensures var t := Release(s, i);
            && Smooth(s, t, clock) && SameJobs(s.entries, t.entries) && SameWaits(s.entries, t.entries)
            && SameHolds(s.entries[i := s.entries[i].(holds := s.entries[i].holds - 1)], t.entries)
  {
    hide Inv;
    InvIndexed(s);
    ReleaseInv(s, i);
    InvIndexed(Release(s, i));
  }

  /** What moving due retries to the queue leaves, the phases of those moved aside. */
  ghost predicate Moved(s: Sched, t: Sched) {
    && |t.entries| == |s.entries|
    && t == s.(entries := t.entries, queue := t.queue, retries := t.retries)
    && (forall i :: 0 <= i < |s.entries| ==>
        || t.entries[i] == s.entries[i]
        || (s.entries[i].phase.BackingOff? && t.entries[i] == s.entries[i].(phase := Queued)))
  }

  lemma MoveOne(s: Sched)
    requires Inv(s) && |s.retries| > 0
    ensures var t := Enqueue(s.(retries := s.retries[1..]), s.retries[0]);
            && Inv(t) && Indexed(s) && Indexed(t) && Moved(s, t) && |t.retries| == |s.retries| - 1
            && Quiet(s, t, s.entries[s.retries[0]].retryAt)
  {
    var i := s.retries[0];
    assert i in s.retries;
    InvIndexed(s);
    EntryInv(s, i);
    LeaveRetries(s);
    JoinQueue(s.(retries := s.retries[1..]), i);
    InvIndexed(Enqueue(s.(retries := s.retries[1..]), i));
  }

  lemma QuietTrans(s: Sched, t: Sched, u: Sched, clock: Time, clock': Time)
    requires Indexed(s) && Indexed(t) && Indexed(u) && clock <= clock'
    requires Moved(s, t) && Moved(t, u) && Quiet(s, t, clock) && Quiet(t, u, clock')
    ensures Moved(s, u) && Quiet(s, u, clock')
  {
  }

  lemma MovedNone(s: Sched, clock: Time)
    requires Indexed(s)
    ensures Moved(s, s) && Quiet(s, s, clock)
  {
  }

  lemma FirstRetry(s: Sched, now: Time)
    requires Inv(s) && (|s.retries| > 0 ==> s.retries[0] < |s.entries| && s.entries[s.retries[0]].retryAt > now)
    ensures Indexed(s)
    ensures forall i :: i in s.retries ==>
              s.entries[i].retryAt > now && s.entries[s.retries[0]].retryAt <= s.entries[i].retryAt
  {
    forall i | i in s.retries
      ensures s.entries[i].retryAt > now && s.entries[s.retries[0]].retryAt <= s.entries[i].retryAt
    {
      var p :| 0 <= p < |s.retries| && s.retries[p] == i;
      assert p > 0 ==> Before(s.entries, s.retries[0], s.retries[p]);
    }
  }

  lemma RetryDueEffect(s: Sched, now: Time)
    requires Inv(s)
    ensures Indexed(s)
    ensures var t := RetryDue(s, now);
            && Inv(t) && Moved(s, t) && Quiet(s, t, now)
            && (forall i :: i in t.retries ==>
                t.entries[i].retryAt > now && t.entries[t.retries[0]].retryAt <= t.entries[i].retryAt)
    decreases |s.retries|
  {
    hide Inv, Moved, Quiet, Enqueue;
    InvIndexed(s);
    MovedNone(s, now);
    if |s.retries| > 0 && s.entries[s.retries[0]].retryAt <= now {
      var s1 := Enqueue(s.(retries := s.retries[1..]), s.retries[0]);
      MoveOne(s);
      RetryDueEffect(s1, now);
      assert RetryDue(s, now) == RetryDue(s1, now);
      QuietTrans(s, s1, RetryDue(s1, now), s.entries[s.retries[0]].retryAt, now);
    } else {
      FirstRetry(s, now);
    }
  }

  ghost predicate OneStarts(es: seq<User>, fs: seq<User>, i: nat) {
    && i < |es| == |fs|
    && !es[i].phase.Running? && fs[i].phase.Running?
    && forall j :: 0 <= j < |es| && j != i ==> (fs[j].phase.Running? <==> es[j].phase.Running?)
  }

  lemma MovedSame(s: Sched, t: Sched)
    requires Moved(s, t)
    ensures SameAll(s.entries, t.entries) && Calm(s, t) && t.changed == s.changed && t.draining == s.draining
  {
  }

  lemma StartEffect(s: Sched, p: nat, clock: Time)
    requires Inv(s) && p < |s.queue|
    ensures Indexed(s) && Indexed(Start(s, p)) && s.queue[p] < |s.entries|
    ensures var t := Start(s, p);
            && OneStarts(s.entries, t.entries, s.queue[p]) && SameWaits(s.entries, t.entries)
            && SameHolds(s.entries, t.entries) && Calm(s, t) && Quiet(s, t, clock)
            && t == s.(entries := t.entries, queue := Remove(s.queue, p), running := s.running + 1)
  {
    assert s.queue[p] in s.queue;
    DistinctRemove(s.queue, p);
    StartInv(s, p);
    InvIndexed(Start(s, p));
  }

  /** next's section, by what it returns. */
  lemma TakeNextEffect(s: Sched, now: Time, clock: Time)
    requires Inv(s) && now <= clock
    ensures Indexed(s)
    ensures var (t, n) := TakeNext(s, now);
            && Smooth(s, t, clock) && t.changed == s.changed
            && SameWaits(s.entries, t.entries) && SameHolds(s.entries, t.entries)
            && (n.Exit? ==> t == s && s.draining)
            && (n.Runs? ==> !s.draining && OneStarts(s.entries, t.entries, n.entry))
            && (n.Waits? ==> SameJobs(s.entries, t.entries) && MaySleep(t, clock, n.due))
            && (n.Waits? ==> forall i: nat :: !Startable(t, i))
  {
    hide Inv, Quiet, Calm, Moved, Start, RetryDue, FirstUnheld;
    InvIndexed(s);
    MovedNone(s, clock);
    MovedSame(s, s);
    if !s.draining {
      RetryDueEffect(s, now);
      var s1 := RetryDue(s, now);
      QuietLater(s, s1, now, clock);
      MovedSame(s, s1);
      InvIndexed(s1);
      var p := FirstUnheld(s1, 0);
      if p < |s1.queue| {
        StartEffect(s1, p, clock);
        StartAfter(s, s1, Start(s1, p), s1.queue[p], clock);
      } else {
        NoneStartable(s1);
      }
    }
  }

  lemma QuietLater(s: Sched, t: Sched, now: Time, clock: Time)
    requires Indexed(s) && Indexed(t) && Quiet(s, t, now) && now <= clock
    ensures Quiet(s, t, clock)
  {
  }

  lemma NoneStartable(s: Sched)
    requires Indexed(s) && FirstUnheld(s, 0) == |s.queue|
    ensures forall i: nat :: !Startable(s, i)
  {
  }

  lemma StartAfter(s: Sched, t: Sched, u: Sched, i: nat, clock: Time)
    requires Indexed(s) && Indexed(t) && Indexed(u) && Moved(s, t)
    requires Quiet(s, t, clock) && Quiet(t, u, clock) && Calm(t, u)
    requires OneStarts(t.entries, u.entries, i) && SameWaits(t.entries, u.entries) && SameHolds(t.entries, u.entries)
    ensures OneStarts(s.entries, u.entries, i) && SameWaits(s.entries, u.entries) && SameHolds(s.entries, u.entries)
    ensures Quiet(s, u, clock) && Calm(s, u)
  {
  }

  lemma SettleEffect(s: Sched, i: nat, outcome: Outcome, now: Time, jitter: real)
    requires Indexed(s) && i < |s.entries|
    ensures var t := Settle(s, i, outcome, now, jitter);
            && t == s.(entries := t.entries, queue := t.queue, retries := t.retries, retrySeq := t.retrySeq)
            && t.entries == s.entries[i := t.entries[i]]
            && !t.entries[i].phase.Running?
            && t.entries[i].key == s.entries[i].key && t.entries[i].backlog == s.entries[i].backlog
            && t.entries[i].holds == s.entries[i].holds && t.entries[i].waiters == s.entries[i].waiters
  {
    match outcome
    case JobCanceled =>
    case JobOk =>
    case JobFailed =>
    case JobPaused =>
  }

  /** finish replaces the channel, ends i's job, and leaves every other entry as it is. */
  lemma FinishEffect(s: Sched, i: nat, backlog: int, outcome: Outcome, now: Time, jitter: real)
    requires Inv(s) && i < |s.entries| && s.entries[i].phase.Running?
    ensures Indexed(s)
    ensures var t := Finish(s, i, backlog, outcome, now, jitter);
            && Indexed(t) && |t.entries| == |s.entries| && t.changed == s.changed + 1
            && t.started == s.started && t.stopped == s.stopped && t.draining == s.draining
            && !t.entries[i].phase.Running?
            && t.entries[i].holds == s.entries[i].holds && t.entries[i].waiters == s.entries[i].waiters
            && forall j :: 0 <= j < |s.entries| && j != i ==> t.entries[j] == s.entries[j]
  {
    hide Inv, Settle, TakeJobMeasure;
    FinishInv(s, i, backlog, outcome, now, jitter);
    InvIndexed(Finish(s, i, backlog, outcome, now, jitter));
    var s0 := s.(running := s.running - 1);
    JobMeasureEffect(s0, i, backlog);
    SettleEffect(TakeJobMeasure(s0, i, backlog), i, outcome, now, jitter);
  }

  lemma JobMeasureEffect(s: Sched, i: nat, backlog: int)
    requires Indexed(s) && i < |s.entries|
    ensures var t := TakeJobMeasure(s, i, backlog);
            && t == s.(entries := t.entries, measured := t.measured)
            && t.entries == s.entries[i := t.entries[i]]
            && t.entries[i].key == s.entries[i].key
            && t.entries[i].holds == s.entries[i].holds && t.entries[i].waiters == s.entries[i].waiters
  {
  }
}
