/**
 The scheduler object: each lock-held section as a method that changes the
 fields, proved to be the section of SchedulerState that every result about
 runs is about. A method that replaces the change channel returns the old one,
 which its caller closes once the lock is released.
 */
module SchedulerObject {
  import opened Common
  import opened SchedulerState

  class Scheduler {
    const maxUsers: int
    var entries: seq<User>
    var users: map<Key, nat>
    var measured: set<Key>
    var queue: seq<nat>
    var retries: seq<nat>
    var running: int
    var retrySeq: int
    var changed: nat
    var started: bool
    var stopped: bool
    var draining: bool

    ghost function State(): Sched
      reads this
    {
      Sched(maxUsers, entries, users, measured, queue, retries, running, retrySeq, changed, started, stopped, draining)
    }

    ghost predicate Valid()
      reads this
    {
      Indexed(State())
    }

    constructor (maxUsers: int)
      ensures Valid() && State() == NewSched(maxUsers)
    {
      this.maxUsers := maxUsers;
      entries, users, measured, queue, retries := [], map[], {}, [], [];
      running, retrySeq, changed := 0, 0, 0;
      started, stopped, draining := false, false, false;
    }

    // ---- the helpers that run under the lock ----

    function ActiveLocked(): int
      reads this
      ensures ActiveLocked() == Active(State())
    {
      |queue| + running + |retries|
    }

    method EnqueueLocked(i: nat)
      requires Valid() && i < |entries|
      modifies this
      ensures Valid() && State() == Enqueue(old(State()), i)
    {
      entries := entries[i := entries[i].(phase := Queued)];
      queue := queue + [i];
    }

    method ForgetLocked(i: nat)
      requires Valid() && i < |entries|
      modifies this`users
      ensures Valid() && State() == Forget(old(State()), i)
    {
      var u := entries[i];
      if u.phase.Idle? && u.holds == 0 && u.waiters == 0 && u.backlog <= 0 && u.key in users && users[u.key] == i {
        users := users - {u.key};
      }
    }

    method ChangedLocked() returns (old': nat)
      requires Valid()
      modifies this`changed
      ensures Valid() && State() == Bump(old(State())) && old' == old(changed)
    {
      old' := changed;
      changed := changed + 1;
    }

    method RetryDueLocked(now: Time)
      requires Valid()
      modifies this
      ensures Valid() && State() == RetryDue(old(State()), now)
    {
      while |retries| > 0 && entries[retries[0]].retryAt <= now
        invariant Valid() && RetryDue(State(), now) == RetryDue(old(State()), now)
        decreases |retries|
      {
        var i := retries[0];
        retries := retries[1..];
        EnqueueLocked(i);
      }
    }

    /** The place of the first queued user no Search holds. */
    method FirstUnheldLocked() returns (p: Option<nat>)
      requires Valid()
      ensures p.None? ==> forall q :: 0 <= q < |queue| ==> entries[queue[q]].holds != 0
      ensures p.Some? ==> p.value < |queue| && entries[queue[p.value]].holds == 0
      ensures p.Some? ==> forall q :: 0 <= q < p.value ==> entries[queue[q]].holds != 0
    {
      var q := 0;
      while q < |queue|
        invariant q <= |queue|
        invariant forall r :: 0 <= r < q ==> entries[queue[r]].holds != 0
      {
        if entries[queue[q]].holds == 0 {
          return Some(q);
        }
        q := q + 1;
      }
      return None;
    }

    /** The entry of key, made when users has none. */
    method EntryOf(key: Key) returns (i: nat)
      requires Valid()
      modifies this`entries, this`users
      ensures Valid() && State() == Know(old(State()), key)
      ensures key in users && i == users[key]
    {
      if key !in users {
        users := users[key := |entries|];
        entries := entries + [NewUser(key)];
      }
      i := users[key];
    }

    // ---- Adds ----

    method Notify(key: Key, addedChars: int, now: Time) returns (closes: Option<nat>)
      requires Valid()
      modifies this
      ensures Valid() && State() == SchedulerState.Notify(old(State()), key, addedChars, now)
      ensures closes == if changed == old(changed) then None else Some(old(changed))
    {
      if (key !in users || entries[users[key]].phase.Idle?) && ActiveLocked() >= maxUsers {
        return None;
      }
      var i := EntryOf(key);
      TellLocked(i, addedChars, now);
      var old' := ChangedLocked();
      return Some(old');
    }

    method TellLocked(i: nat, addedChars: int, now: Time)
      requires Valid() && i < |entries|
      modifies this
      ensures Valid() && State() == Told(old(State()), i, addedChars, now)
    {
      entries := entries[i := entries[i].(backlog := entries[i].backlog + addedChars)];
      match entries[i].phase {
        case Idle =>
          entries := entries[i := entries[i].(since := Some(now))];
          EnqueueLocked(i);
        case Running =>
          entries := entries[i := entries[i].(added := entries[i].added + addedChars)];
          if !entries[i].dirty {
            entries := entries[i := entries[i].(dirty := true, dirtySince := Some(now))];
          }
        case Queued =>
        case BackingOff =>
      }
    }

    /** WaitBacklog up to its first sleep or its return; entry is the one it keeps. */
    method WaitEnters(key: Key, limit: int, now: Time) returns (entry: Option<nat>, next: WaitNext, closes: Option<nat>)
      requires Valid()
      modifies this
      ensures Valid() && (entry.None? <==> key !in old(users))
      ensures entry.None? ==> State() == old(State()) && next.Return? && closes.None?
      ensures entry.Some? ==>
                && entry.value == old(users)[key]
                && (State(), next) == WaitLoop(EnterWait(old(State()), entry.value), entry.value, limit, now)
                && closes == if changed == old(changed) then None else Some(old(changed))
    {
      if key !in users {
        return None, Return, None;
      }
      var i := users[key];
      entry := Some(i);
      entries := entries[i := entries[i].(waiters := entries[i].waiters + 1)];
      next, closes := WaitGoesOn(i, limit, now);
    }

    /** The loop's test and body after a wake-up that is not the end of the caller's context. */
    method WaitGoesOn(i: nat, limit: int, now: Time) returns (next: WaitNext, closes: Option<nat>)
      requires Valid() && i < |entries|
      modifies this
      ensures Valid() && (State(), next) == WaitLoop(old(State()), i, limit, now)
      ensures closes == if changed == old(changed) then None else Some(old(changed))
    {
      var u := entries[i];
      if !(u.backlog > limit && !u.phase.BackingOff? && !stopped && !draining) {
        WaitLeaves(i);
        return Return, None;
      }
      closes := None;
      if u.phase.Idle? {
        if ActiveLocked() >= maxUsers {
          WaitLeaves(i);
          return Return, None;
        }
        entries := entries[i := u.(since := Some(now))];
        EnqueueLocked(i);
        var old' := ChangedLocked();
        closes := Some(old');
      }
      next := Sleep(changed);
    }

    method WaitLeaves(i: nat)
      requires Valid() && i < |entries|
      modifies this`entries, this`users
      ensures Valid() && State() == LeaveWait(old(State()), i)
    {
      entries := entries[i := entries[i].(waiters := entries[i].waiters - 1)];
      ForgetLocked(i);
    }

    method Measured(key: Key, chars: int) returns (closes: Option<nat>)
      requires Valid()
      modifies this
      ensures Valid() && State() == SchedulerState.Measured(old(State()), key, chars)
      ensures closes == if changed == old(changed) then None else Some(old(changed))
    {
      if key !in users || entries[users[key]].measured || entries[users[key]].phase.Running? {
        return None;
      }
      var i := users[key];
      entries := entries[i := entries[i].(backlog := chars, measured := true)];
      measured := measured + {key};
      var old' := ChangedLocked();
      return Some(old');
    }

    // ---- Searches ----

    method Hold(key: Key) returns (i: nat)
      requires Valid()
      modifies this`entries, this`users
      ensures Valid() && State() == SchedulerState.Hold(old(State()), key)
      ensures key in users && i == users[key]
    {
      i := EntryOf(key);
      entries := entries[i := entries[i].(holds := entries[i].holds + 1)];
    }

    method Release(i: nat) returns (closes: nat)
      requires Valid() && i < |entries|
      modifies this
      ensures Valid() && State() == SchedulerState.Release(old(State()), i) && closes == old(changed)
    {
      entries := entries[i := entries[i].(holds := entries[i].holds - 1)];
      ForgetLocked(i);
      closes := ChangedLocked();
    }

    // ---- Run, its workers and Drain ----

    method Drain() returns (closes: nat)
      requires Valid()
      modifies this
      ensures Valid() && State() == SchedulerState.Drain(old(State())) && closes == old(changed)
    {
      draining := true;
      closes := ChangedLocked();
    }

    method RunBegins() returns (ok: bool)
      requires Valid()
      modifies this
      ensures Valid() && ok == !old(started)
      ensures State() == if ok then RunStarts(old(State())) else old(State())
    {
      if started {
        return false;
      }
      started, stopped := true, false;
      return true;
    }

    method RunReturns() returns (closes: nat)
      requires Valid()
      modifies this
      ensures Valid() && State() == RunEnds(old(State())) && closes == old(changed)
    {
      started, stopped := false, true;
      closes := ChangedLocked();
    }

    /** next's second section: the user to run, or how long to sleep. */
    method Next(now: Time) returns (r: SchedulerState.Next)
      requires Valid()
      modifies this
      ensures Valid() && (State(), r) == TakeNext(old(State()), now)
    {
      hide RetryDue, FirstUnheld, TakeNext;
      if draining {
        Drained(State(), now);
        return Exit;
      }
      RetryDueLocked(now);
      var p := FirstUnheldLocked();
      Takes(old(State()), now, p);
      match p {
        case Some(q) =>
          var i := queue[q];
          queue := Remove(queue, q);
          entries := entries[i := entries[i].(phase := Running, added := 0, dirty := false, dirtySince := None)];
          running := running + 1;
          return Runs(i);
        case None =>
          return Waits(if |retries| > 0 then Some(entries[retries[0]].retryAt) else None);
      }
    }

    method Finish(i: nat, backlog: int, outcome: Outcome, now: Time, jitter: real) returns (closes: nat)
      requires Valid() && i < |entries|
      modifies this
      ensures Valid() && State() == SchedulerState.Finish(old(State()), i, backlog, outcome, now, jitter)
      ensures closes == old(changed)
    {
      hide Settle;
      running := running - 1;
      TakeMeasure(i, backlog);
      FinishSettles(i, outcome, now, jitter);
      ForgetLocked(i);
      closes := ChangedLocked();
    }

    method TakeMeasure(i: nat, backlog: int)
      requires Valid() && i < |entries|
      modifies this`entries, this`measured
      ensures Valid() && State() == TakeJobMeasure(old(State()), i, backlog) && |entries| == |old(entries)|
    {
      if backlog >= 0 {
        entries := entries[i := entries[i].(backlog := backlog + entries[i].added, measured := true)];
        measured := measured + {entries[i].key};
      }
      entries := entries[i := entries[i].(added := 0)];
    }

    method FinishSettles(i: nat, outcome: Outcome, now: Time, jitter: real)
      requires Valid() && i < |entries|
      modifies this
      ensures Valid() && State() == Settle(old(State()), i, outcome, now, jitter)
      ensures changed == old(changed) && |entries| == |old(entries)|
    {
      match outcome {
        case JobCanceled =>
          entries := entries[i := entries[i].(dirty := false, dirtySince := None)];
          EnqueueLocked(i);
        case JobOk =>
          var u := entries[i];
          entries := entries[i := u.(failures := 0, dirty := false, dirtySince := None)];
          if u.dirty {
            entries := entries[i := entries[i].(since := u.dirtySince)];
            EnqueueLocked(i);
          } else {
            entries := entries[i := entries[i].(phase := Idle, since := None)];
          }
        case _ =>
          BackOff(i, outcome, now, jitter);
      }
    }

    method BackOff(i: nat, outcome: Outcome, now: Time, jitter: real)
      requires Valid() && i < |entries| && (outcome.JobFailed? || outcome.JobPaused?)
      modifies this
      ensures Valid() && State() == Settle(old(State()), i, outcome, now, jitter)
      ensures changed == old(changed) && |entries| == |old(entries)|
    {
      hide PushRetry, DelayOf, Settle;
      BacksOff(State(), i, outcome, now, jitter);
      var u := entries[i].(failures := entries[i].failures + 1);
      var delay := DelayOf(u, outcome, jitter);
      retrySeq := retrySeq + 1;
      entries := entries[i := u.(phase := BackingOff, retryAt := now + delay, seqNo := retrySeq,
                                 dirty := false, dirtySince := None)];
      PushedIndices(entries, retries, i);
      retries := PushRetry(entries, retries, i);
    }
  }

  /** What settling a job that failed or was paused comes to. */
  lemma BacksOff(s: Sched, i: nat, outcome: Outcome, now: Time, jitter: real)
    requires Indexed(s) && i < |s.entries| && (outcome.JobFailed? || outcome.JobPaused?)
    ensures var u := s.entries[i].(failures := s.entries[i].failures + 1);
            var es := s.entries[i := u.(phase := BackingOff, retryAt := now + DelayOf(u, outcome, jitter),
                                        seqNo := s.retrySeq + 1, dirty := false, dirtySince := None)];
            && (forall p :: 0 <= p < |s.retries| ==> s.retries[p] < |es|)
            && Settle(s, i, outcome, now, jitter)
               == s.(entries := es, retrySeq := s.retrySeq + 1, retries := PushRetry(es, s.retries, i))
  {
    hide PushRetry, DelayOf;
  }

  lemma Drained(s: Sched, now: Time)
    requires Indexed(s) && s.draining
    ensures TakeNext(s, now) == (s, Exit)
  {
  }

  /** What next comes to, from the place of the first unheld user. */
  lemma Takes(s: Sched, now: Time, p: Option<nat>)
    requires Indexed(s) && !s.draining
    requires var s1 := RetryDue(s, now);
             if p.None? then forall q :: 0 <= q < |s1.queue| ==> s1.entries[s1.queue[q]].holds != 0
             else p.value < |s1.queue| && s1.entries[s1.queue[p.value]].holds == 0
                  && forall q :: 0 <= q < p.value ==> s1.entries[s1.queue[q]].holds != 0
    ensures var s1 := RetryDue(s, now);
            TakeNext(s, now) ==
              if p.Some? then (Start(s1, p.value), Runs(s1.queue[p.value]))
              else (s1, Waits(if |s1.retries| > 0 then Some(s1.entries[s1.retries[0]].retryAt) else None))
  {
    hide RetryDue, Start, FirstUnheld;
  }

  lemma PushedIndices(entries: seq<User>, r: seq<nat>, i: nat)
    requires i < |entries| && forall p :: 0 <= p < |r| ==> r[p] < |entries|
    ensures forall p :: 0 <= p < |PushRetry(entries, r, i)| ==> PushRetry(entries, r, i)[p] < |entries|
  {
    forall p | 0 <= p < |PushRetry(entries, r, i)|
      ensures PushRetry(entries, r, i)[p] < |entries|
    {
      assert PushRetry(entries, r, i)[p] in multiset(r) + multiset{i};
    }
  }
}
