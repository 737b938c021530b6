/**
 What every lock-held section of the scheduler keeps: the users with work are
 partitioned over the queue, the running set and the retry heap, under the
 bound on their number.
 */
module SchedulerInvariant {
  import opened Common
  import opened SchedulerState
  import RetryDelay

  /** A user the scheduler must not lose sight of: with work, held or waited on. */
  predicate Needed(u: User) {
    !u.phase.Idle? || u.holds > 0 || u.waiters > 0
  }

  /** Each field of an entry says something only in the phases it belongs to. */
  predicate Coherent(u: User) {
    && u.holds >= 0 && u.waiters >= 0 && u.backlog >= 0 && u.added >= 0
    && (u.since.Some? <==> !u.phase.Idle?)
    && (u.dirty <==> u.dirtySince.Some?)
    && (!u.phase.Running? ==> !u.dirty && u.added == 0)
    && (u.phase.Idle? ==> u.failures == 0)
  }

  // The parts of the invariant. x is an entry on its way from one place to
  // another, which they say nothing of, and -1 between the sections.

  ghost predicate UsersOk(entries: seq<User>, users: map<Key, nat>, x: int) {
    && (forall k :: k in users ==> users[k] < |entries| && entries[users[k]].key == k)
    && (forall i :: 0 <= i < |entries| && (Needed(entries[i]) || i == x) ==>
        entries[i].key in users && users[entries[i].key] == i)
    && (forall i :: 0 <= i < |entries| && i != x ==> Coherent(entries[i]))
  }

  ghost predicate QueueOk(entries: seq<User>, queue: seq<nat>, x: int) {
    && Distinct(queue)
    && (forall p :: 0 <= p < |queue| ==> queue[p] < |entries|)
    && (forall i: nat :: i in queue <==> i < |entries| && i != x && entries[i].phase.Queued?)
  }

  ghost predicate Sorted(entries: seq<User>, retries: seq<nat>) {
    && (forall p :: 0 <= p < |retries| ==> retries[p] < |entries|)
    && (forall p, q :: 0 <= p < q < |retries| ==> Before(entries, retries[p], retries[q]))
  }

  ghost predicate RetriesOk(entries: seq<User>, retries: seq<nat>, retrySeq: int, x: int) {
    && Sorted(entries, retries)
    && (forall p :: 0 <= p < |retries| ==> entries[retries[p]].seqNo <= retrySeq)
    && (forall i: nat :: i in retries <==> i < |entries| && i != x && entries[i].phase.BackingOff?)
  }

  ghost function RunningSet(entries: seq<User>, x: int): set<nat> {
    set i: nat | i < |entries| && i != x && entries[i].phase.Running?
  }

  ghost predicate Placed(s: Sched, x: int) {
    && UsersOk(s.entries, s.users, x)
    && QueueOk(s.entries, s.queue, x)
    && RetriesOk(s.entries, s.retries, s.retrySeq, x)
    && s.running == |RunningSet(s.entries, x)|
  }

  /**
   The partition: each entry with work is the one `users` has for its key, and
   is in the queue (once), in the retry heap (once, in its order) or running,
   as its phase says; running counts the running ones, and those with work are
   never more than maxUsers.
   */
  ghost predicate Inv(s: Sched) {
    Placed(s, -1) && (Active(s) <= s.maxUsers || Active(s) == 0)
  }

  /** Inv, but for entry x, which is out of the three places; there is room for it. */
  ghost predicate InvBut(s: Sched, x: nat) {
    x < |s.entries| && Placed(s, x) && Active(s) + 1 <= s.maxUsers
  }

  lemma InvIndexed(s: Sched)
    requires Inv(s)
    ensures Indexed(s)
  {
  }

  lemma InitInv(maxUsers: int)
    ensures Inv(NewSched(maxUsers))
  {
    assert RunningSet([], -1) == {};
  }

  lemma EntryInv(s: Sched, i: nat)
    requires Inv(s) && i < |s.entries|
    ensures Coherent(s.entries[i])
    ensures Needed(s.entries[i]) ==> s.entries[i].key in s.users && s.users[s.entries[i].key] == i
  {
  }

  lemma UserInv(s: Sched, key: Key)
    requires Inv(s)
    ensures key in s.users ==> s.users[key] < |s.entries| && s.entries[s.users[key]].key == key
  {
  }

  // ---- the parts, when one entry changes or an entry is added ----

  lemma SortedFrame(old_: seq<User>, new_: seq<User>, retries: seq<nat>)
    requires Sorted(old_, retries) && |old_| <= |new_|
    requires forall p :: 0 <= p < |retries| ==>
               new_[retries[p]].retryAt == old_[retries[p]].retryAt && new_[retries[p]].seqNo == old_[retries[p]].seqNo
    ensures Sorted(new_, retries)
  {
    forall p, q | 0 <= p < q < |retries|
      ensures Before(new_, retries[p], retries[q])
    {
      assert Before(old_, retries[p], retries[q]);
    }
  }

  lemma SortedDistinct(entries: seq<User>, retries: seq<nat>)
    requires Sorted(entries, retries)
    ensures Distinct(retries)
  {
    forall p, q | 0 <= p < q < |retries|
      ensures retries[p] != retries[q]
    {
      assert Before(entries, retries[p], retries[q]);
    }
  }

  lemma UsersPut(entries: seq<User>, users: map<Key, nat>, x: int, i: nat, u: User)
    requires UsersOk(entries, users, x) && i < |entries| && u.key == entries[i].key
    requires i == x || Coherent(u)
    requires Needed(u) ==> u.key in users && users[u.key] == i
    ensures UsersOk(entries[i := u], users, x)
  {
  }

  lemma QueuePut(entries: seq<User>, queue: seq<nat>, x: int, i: nat, u: User)
    requires QueueOk(entries, queue, x) && i < |entries| && (i == x || u.phase == entries[i].phase)
    ensures QueueOk(entries[i := u], queue, x)
  {
  }

  lemma RetriesPut(entries: seq<User>, retries: seq<nat>, retrySeq: int, x: int, i: nat, u: User)
    requires RetriesOk(entries, retries, retrySeq, x) && i < |entries|
    requires i == x
             || (u.phase == entries[i].phase && u.retryAt == entries[i].retryAt && u.seqNo == entries[i].seqNo)
    ensures RetriesOk(entries[i := u], retries, retrySeq, x)
  {
    forall p | 0 <= p < |retries|
      ensures retries[p] != x
    {
      assert retries[p] in retries;
    }
    SortedFrame(entries, entries[i := u], retries);
  }

  /** An entry changes in what is not its key, or (unless it is x) its phase or its place in the heap. */
  lemma PlacedPut(s: Sched, x: int, i: nat, u: User)
    requires Placed(s, x) && i < |s.entries| && u.key == s.entries[i].key
    requires i == x
             || (&& u.phase == s.entries[i].phase && Coherent(u)
                 && u.retryAt == s.entries[i].retryAt && u.seqNo == s.entries[i].seqNo)
    requires Needed(u) ==> u.key in s.users && s.users[u.key] == i
    ensures Placed(Put(s, i, u), x)
  {
    UsersPut(s.entries, s.users, x, i, u);
    QueuePut(s.entries, s.queue, x, i, u);
    RetriesPut(s.entries, s.retries, s.retrySeq, x, i, u);
    assert RunningSet(s.entries[i := u], x) == RunningSet(s.entries, x);
  }

  /** PlacedPut for the entry on its way. */
  lemma PutBut(s: Sched, i: nat, u: User)
    requires InvBut(s, i) && u.key == s.entries[i].key
    ensures InvBut(Put(s, i, u), i)
  {
    PlacedPut(s, i, i, u);
  }

  lemma PutInv(s: Sched, i: nat, u: User)
    requires Inv(s) && i < |s.entries|
    requires u.key == s.entries[i].key && u.phase == s.entries[i].phase && Coherent(u)
    requires u.retryAt == s.entries[i].retryAt && u.seqNo == s.entries[i].seqNo
    requires Needed(u) ==> u.key in s.users && s.users[u.key] == i
    ensures Inv(Put(s, i, u))
  {
    PlacedPut(s, -1, i, u);
  }

  lemma KnowInv(s: Sched, key: Key)
    requires Inv(s)
    ensures Inv(Know(s, key)) && Active(Know(s, key)) == Active(s) && Know(s, key).maxUsers == s.maxUsers
    ensures key in Know(s, key).users && Know(s, key).users[key] < |Know(s, key).entries|
    ensures Know(s, key).entries[Know(s, key).users[key]].key == key
  {
    hide UsersOk, QueueOk, RetriesOk, RunningSet;
    UserInv(s, key);
    if key !in s.users {
      KnowUsers(s.entries, s.users, key);
      KnowQueue(s.entries, s.queue, key);
      KnowRetries(s.entries, s.retries, s.retrySeq, key);
      KnowRunning(s.entries, key);
    }
  }

  lemma KnowUsers(entries: seq<User>, users: map<Key, nat>, key: Key)
    requires UsersOk(entries, users, -1) && key !in users
    ensures UsersOk(entries + [NewUser(key)], users[key := |entries|], -1)
  {
  }

  lemma KnowQueue(entries: seq<User>, queue: seq<nat>, key: Key)
    requires QueueOk(entries, queue, -1)
    ensures QueueOk(entries + [NewUser(key)], queue, -1)
  {
  }

  lemma KnowRetries(entries: seq<User>, retries: seq<nat>, retrySeq: int, key: Key)
    requires RetriesOk(entries, retries, retrySeq, -1)
    ensures RetriesOk(entries + [NewUser(key)], retries, retrySeq, -1)
  {
    SortedFrame(entries, entries + [NewUser(key)], retries);
  }

  lemma KnowRunning(entries: seq<User>, key: Key)
    ensures RunningSet(entries + [NewUser(key)], -1) == RunningSet(entries, -1)
  {
  }

  lemma ForgetInv(s: Sched, i: nat)
    requires Inv(s) && i < |s.entries|
    ensures Inv(Forget(s, i))
  {
  }

  // ---- from one place to another ----

  lemma LeaveIdle(s: Sched, i: nat)
    requires Inv(s) && i < |s.entries| && s.entries[i].phase.Idle?
    requires s.entries[i].key in s.users && s.users[s.entries[i].key] == i
    requires Active(s) < s.maxUsers
    ensures InvBut(s, i)
  {
    assert RunningSet(s.entries, i) == RunningSet(s.entries, -1);
  }

  lemma LeaveRunning(s: Sched, i: nat)
    requires Inv(s) && i < |s.entries| && s.entries[i].phase.Running?
    ensures InvBut(s.(running := s.running - 1), i)
  {
    assert i in RunningSet(s.entries, -1);
    assert RunningSet(s.entries, i) == RunningSet(s.entries, -1) - {i};
    assert Needed(s.entries[i]);
  }

  lemma LeaveQueue(s: Sched, p: nat)
    requires Inv(s) && p < |s.queue|
    ensures InvBut(s.(queue := Remove(s.queue, p)), s.queue[p])
  {
    var i := s.queue[p];
    DistinctRemove(s.queue, p);
    assert i in s.queue;
    assert Needed(s.entries[i]);
    assert RunningSet(s.entries, i) == RunningSet(s.entries, -1);
    assert QueueOk(s.entries, Remove(s.queue, p), i);
    assert UsersOk(s.entries, s.users, i);
    assert RetriesOk(s.entries, s.retries, s.retrySeq, i);
  }

  lemma LeaveRetries(s: Sched)
    requires Inv(s) && |s.retries| > 0
    ensures InvBut(s.(retries := s.retries[1..]), s.retries[0])
  {
    hide UsersOk, QueueOk, RetriesOk, RunningSet;
    var i := s.retries[0];
    FirstRetry(s.entries, s.retries, s.retrySeq);
    UsersLeave(s.entries, s.users, i);
    QueueLeave(s.entries, s.queue, i);
    RunningLeave(s.entries, i);
  }

  /** The rest of the retries, without their first. */
  lemma FirstRetry(entries: seq<User>, retries: seq<nat>, retrySeq: int)
    requires RetriesOk(entries, retries, retrySeq, -1) && |retries| > 0
    ensures retries[0] < |entries| && entries[retries[0]].phase.BackingOff?
    ensures RetriesOk(entries, retries[1..], retrySeq, retries[0])
  {
    hide Sorted, Before;
    SortedDistinct(entries, retries);
    SortedTail(entries, retries);
    assert retries[1..] == Remove(retries, 0);
    DistinctRemove(retries, 0);
    assert retries[0] in retries;
  }

  lemma SortedTail(entries: seq<User>, retries: seq<nat>)
    requires Sorted(entries, retries) && |retries| > 0
    ensures Sorted(entries, retries[1..]) && retries[0] < |entries|
  {
    hide Before;
    var r := retries[1..];
    forall p, q | 0 <= p < q < |r|
      ensures Before(entries, r[p], r[q])
    {
      assert Before(entries, retries[p + 1], retries[q + 1]);
    }
  }

  lemma UsersLeave(entries: seq<User>, users: map<Key, nat>, i: nat)
    requires UsersOk(entries, users, -1) && i < |entries| && Needed(entries[i])
    ensures UsersOk(entries, users, i)
  {
  }

  lemma QueueLeave(entries: seq<User>, queue: seq<nat>, i: nat)
    requires QueueOk(entries, queue, -1) && i < |entries| && !entries[i].phase.Queued?
    ensures QueueOk(entries, queue, i)
  {
  }

  lemma RunningLeave(entries: seq<User>, i: nat)
    requires i < |entries| && !entries[i].phase.Running?
    ensures RunningSet(entries, i) == RunningSet(entries, -1)
  {
  }

  lemma JoinIdle(s: Sched, i: nat)
    requires InvBut(s, i) && s.entries[i].phase.Idle? && Coherent(s.entries[i])
    ensures Inv(s)
  {
    assert RunningSet(s.entries, i) == RunningSet(s.entries, -1);
  }

  lemma JoinRunning(s: Sched, i: nat)
    requires InvBut(s, i) && s.entries[i].phase.Running? && Coherent(s.entries[i])
    ensures Inv(s.(running := s.running + 1))
  {
    assert RunningSet(s.entries, -1) == RunningSet(s.entries, i) + {i};
  }

  lemma JoinQueue(s: Sched, i: nat)
    requires InvBut(s, i) && Coherent(s.entries[i].(phase := Queued))
    ensures Inv(Enqueue(s, i))
  {
    var u := s.entries[i].(phase := Queued);
    PutBut(s, i, u);
    var t := Put(s, i, u);
    assert i !in t.queue;
    assert RunningSet(t.entries, i) == RunningSet(t.entries, -1);
    assert QueueOk(t.entries, t.queue + [i], -1);
    assert RetriesOk(t.entries, t.retries, t.retrySeq, -1);
    assert UsersOk(t.entries, t.users, -1);
  }

  lemma PushSorted(entries: seq<User>, r: seq<nat>, i: nat)
    requires i < |entries| && Sorted(entries, r)
    requires forall p :: 0 <= p < |r| ==> entries[r[p]].seqNo != entries[i].seqNo
    ensures forall x :: x in PushRetry(entries, r, i) <==> x in r || x == i
    ensures Sorted(entries, PushRetry(entries, r, i))
  {
    var r' := PushRetry(entries, r, i);
    assert forall x :: x in r' <==> x in multiset(r');
    if |r| == 0 {
    } else if Before(entries, i, r[0]) {
      PrependSorted(entries, r, i);
    } else {
      var rest := r[1..];
      forall p, q | 0 <= p < q < |rest|
        ensures Before(entries, rest[p], rest[q])
      {
        assert Before(entries, r[p + 1], r[q + 1]);
      }
      PushSorted(entries, rest, i);
      var rest' := PushRetry(entries, rest, i);
      forall q | 0 <= q < |rest'|
        ensures Before(entries, r[0], rest'[q])
      {
        assert rest'[q] in rest';
        if rest'[q] != i {
          var k :| 0 <= k < |rest| && rest[k] == rest'[q];
          assert Before(entries, r[0], r[k + 1]);
        }
      }
      PrependSorted(entries, rest', r[0]);
    }
  }

  lemma PrependSorted(entries: seq<User>, r: seq<nat>, i: nat)
    requires i < |entries| && Sorted(entries, r)
    requires |r| > 0 ==> Before(entries, i, r[0])
    ensures Sorted(entries, [i] + r)
  {
    var t := [i] + r;
    forall p, q | 0 <= p < q < |t|
      ensures Before(entries, t[p], t[q])
    {
      if p > 0 {
        assert Before(entries, r[p - 1], r[q - 1]);
      } else if q > 1 {
        assert Before(entries, r[0], r[q - 1]);
      }
    }
  }

  lemma JoinRetries(s: Sched, i: nat)
    requires InvBut(s, i) && s.entries[i].phase.BackingOff? && Coherent(s.entries[i])
    requires s.entries[i].seqNo == s.retrySeq + 1
    ensures Inv(s.(retrySeq := s.retrySeq + 1, retries := PushRetry(s.entries, s.retries, i)))
  {
    PushSorted(s.entries, s.retries, i);
    var r := PushRetry(s.entries, s.retries, i);
    forall p | 0 <= p < |r|
      ensures s.entries[r[p]].seqNo <= s.retrySeq + 1
    {
      assert r[p] in r;
      if r[p] != i {
        var k :| 0 <= k < |s.retries| && s.retries[k] == r[p];
      }
    }
    assert RunningSet(s.entries, i) == RunningSet(s.entries, -1);
    assert RetriesOk(s.entries, r, s.retrySeq + 1, -1);
    assert QueueOk(s.entries, s.queue, -1);
    assert UsersOk(s.entries, s.users, -1);
  }

  // ---- the sections ----

  /** The invariant says nothing of the channel, of Run's and Drain's flags, or of who was measured. */
  lemma FlagsInv(s: Sched, t: Sched)
    requires Inv(s)
    requires t == s.(changed := t.changed, started := t.started, stopped := t.stopped, draining := t.draining,
                     measured := t.measured)
    ensures Inv(t)
  {
  }

  lemma BumpInv(s: Sched)
    requires Inv(s)
    ensures Inv(Bump(s))
  {
  }

  lemma QueueIdleInv(s: Sched, i: nat, u: User)
    requires Inv(s) && i < |s.entries| && s.entries[i].phase.Idle?
    requires s.entries[i].key in s.users && s.users[s.entries[i].key] == i
    requires Active(s) < s.maxUsers
    requires u.key == s.entries[i].key && Coherent(u.(phase := Queued))
    ensures Inv(Enqueue(Put(s, i, u), i))
  {
    hide Placed;
    LeaveIdle(s, i);
    PutBut(s, i, u);
    JoinQueue(Put(s, i, u), i);
  }

  lemma ToldRunning(s: Sched, i: nat, chars: int, now: Time)
    requires Inv(s) && chars >= 0 && i < |s.entries| && s.entries[i].phase.Running?
    ensures Inv(Told(s, i, chars, now))
  {
    hide Inv;
    EntryInv(s, i);
    PutInv(s, i, Told(s, i, chars, now).entries[i]);
  }

  lemma ToldIdle(s: Sched, i: nat, chars: int, now: Time)
    requires Inv(s) && chars >= 0 && i < |s.entries| && s.entries[i].key in s.users && s.users[s.entries[i].key] == i
    requires s.entries[i].phase.Idle? && Active(s) < s.maxUsers
    ensures Inv(Told(s, i, chars, now))
  {
    hide Inv;
    EntryInv(s, i);
    var u := s.entries[i].(backlog := s.entries[i].backlog + chars, since := Some(now));
    QueueIdleInv(s, i, u);
  }

  lemma ToldPending(s: Sched, i: nat, chars: int, now: Time)
    requires Inv(s) && chars >= 0 && i < |s.entries| && (s.entries[i].phase.Queued? || s.entries[i].phase.BackingOff?)
    ensures Inv(Told(s, i, chars, now))
  {
    hide Inv;
    EntryInv(s, i);
    PutInv(s, i, s.entries[i].(backlog := s.entries[i].backlog + chars));
  }

  lemma ToldInv(s: Sched, i: nat, chars: int, now: Time)
    requires Inv(s) && chars >= 0 && i < |s.entries| && s.entries[i].key in s.users && s.users[s.entries[i].key] == i
    requires s.entries[i].phase.Idle? ==> Active(s) < s.maxUsers
    ensures Inv(Told(s, i, chars, now))
  {
    match s.entries[i].phase {
      case Idle => ToldIdle(s, i, chars, now);
      case Running => ToldRunning(s, i, chars, now);
      case _ => ToldPending(s, i, chars, now);
    }
  }

  lemma NotifyInv(s: Sched, key: Key, chars: int, now: Time)
    requires Inv(s) && chars >= 0
    ensures key in s.users ==> s.users[key] < |s.entries|
    ensures Inv(Notify(s, key, chars, now))
  {
    hide Inv;
    UserInv(s, key);
    if !Full(s, key) {
      KnowInv(s, key);
      ToldInv(Know(s, key), Know(s, key).users[key], chars, now);
      BumpInv(Told(Know(s, key), Know(s, key).users[key], chars, now));
    }
  }

  lemma LeaveWaitInv(s: Sched, i: nat)
    requires Inv(s) && i < |s.entries| && s.entries[i].waiters > 0
    ensures Inv(LeaveWait(s, i))
  {
    hide Inv;
    EntryInv(s, i);
    var u := s.entries[i].(waiters := s.entries[i].waiters - 1);
    PutInv(s, i, u);
    ForgetInv(Put(s, i, u), i);
  }

  lemma EnterWaitInv(s: Sched, key: Key)
    requires Inv(s) && key in s.users
    ensures s.users[key] < |s.entries| && Inv(EnterWait(s, s.users[key]))
  {
    hide Inv;
    UserInv(s, key);
    var i := s.users[key];
    EntryInv(s, i);
    PutInv(s, i, s.entries[i].(waiters := s.entries[i].waiters + 1));
  }

  lemma WaitLoopInv(s: Sched, i: nat, limit: int, now: Time)
    requires Inv(s) && i < |s.entries| && s.entries[i].waiters > 0
    ensures Inv(WaitLoop(s, i, limit, now).0)
  {
    hide Inv;
    EntryInv(s, i);
    var u := s.entries[i];
    if KeepsWaiting(s, i, limit) && u.phase.Idle? && Active(s) < s.maxUsers {
      QueueIdleInv(s, i, u.(since := Some(now)));
      BumpInv(Enqueue(Put(s, i, u.(since := Some(now))), i));
    } else {
      LeaveWaitInv(s, i);
    }
  }

  lemma HeldInv(s: Sched, i: nat)
    requires Inv(s) && i < |s.entries| && s.entries[i].key in s.users && s.users[s.entries[i].key] == i
    ensures Inv(Put(s, i, s.entries[i].(holds := s.entries[i].holds + 1)))
  {
    hide Inv;
    EntryInv(s, i);
    PutInv(s, i, s.entries[i].(holds := s.entries[i].holds + 1));
  }

  lemma HoldInv(s: Sched, key: Key)
    requires Inv(s)
    ensures key in s.users ==> s.users[key] < |s.entries|
    ensures Inv(Hold(s, key))
  {
    hide Inv;
    UserInv(s, key);
    KnowInv(s, key);
    HeldInv(Know(s, key), Know(s, key).users[key]);
  }

  lemma ReleaseInv(s: Sched, i: nat)
    requires Inv(s) && i < |s.entries| && s.entries[i].holds > 0
    ensures Inv(Release(s, i))
  {
    hide Inv;
    EntryInv(s, i);
    var u := s.entries[i].(holds := s.entries[i].holds - 1);
    PutInv(s, i, u);
    ForgetInv(Put(s, i, u), i);
    BumpInv(Forget(Put(s, i, u), i));
  }

  lemma MeasuredInv(s: Sched, key: Key, chars: int)
    requires Inv(s) && chars >= 0
    ensures key in s.users ==> s.users[key] < |s.entries|
    ensures Inv(Measured(s, key, chars))
  {
    hide Inv;
    UserInv(s, key);
    if TakesMeasure(s, key) {
      var i := s.users[key];
      EntryInv(s, i);
      PutInv(s, i, s.entries[i].(backlog := chars, measured := true));
      FlagsInv(Put(s, i, s.entries[i].(backlog := chars, measured := true)), Measured(s, key, chars));
    }
  }

  lemma RetryDueInv(s: Sched, now: Time)
    requires Inv(s)
    ensures Inv(RetryDue(s, now)) && Active(RetryDue(s, now)) == Active(s)
    decreases |s.retries|
  {
    if |s.retries| > 0 && s.entries[s.retries[0]].retryAt <= now {
      var i := s.retries[0];
      var s1 := s.(retries := s.retries[1..]);
      assert i in s.retries;
      LeaveRetries(s);
      JoinQueue(s1, i);
      RetryDueInv(Enqueue(s1, i), now);
    }
  }

  lemma StartInv(s: Sched, p: nat)
    requires Inv(s) && p < |s.queue|
    ensures Inv(Start(s, p)) && Active(Start(s, p)) == Active(s)
  {
    var i := s.queue[p];
    var s1 := s.(queue := Remove(s.queue, p));
    assert i in s.queue;
    LeaveQueue(s, p);
    var u := s.entries[i].(phase := Running, added := 0, dirty := false, dirtySince := None);
    PutBut(s1, i, u);
    JoinRunning(Put(s1, i, u), i);
  }

  lemma TakeNextInv(s: Sched, now: Time)
    requires Inv(s)
    ensures Indexed(s) && Inv(TakeNext(s, now).0)
  {
    if !s.draining {
      RetryDueInv(s, now);
      var s1 := RetryDue(s, now);
      var p := FirstUnheld(s1, 0);
      if p < |s1.queue| {
        StartInv(s1, p);
      }
    }
  }

  lemma ButIndexed(s: Sched, i: nat)
    requires InvBut(s, i)
    ensures Indexed(s)
  {
  }

  lemma SettleInv(s: Sched, i: nat, outcome: Outcome, now: Time, jitter: real)
    requires InvBut(s, i) && i < |s.entries|
    requires s.entries[i].phase.Running? && Coherent(s.entries[i]) && s.entries[i].added == 0
    ensures Indexed(s) && Inv(Settle(s, i, outcome, now, jitter))
  {
    hide InvBut, Inv;
    ButIndexed(s, i);
    var u := s.entries[i];
    match outcome {
      case JobCanceled =>
        var v := u.(dirty := false, dirtySince := None);
        PutBut(s, i, v);
        JoinQueue(Put(s, i, v), i);
      case JobOk =>
        if u.dirty {
          var v := u.(failures := 0, since := u.dirtySince, dirty := false, dirtySince := None);
          PutBut(s, i, v);
          JoinQueue(Put(s, i, v), i);
        } else {
          var v := u.(failures := 0, phase := Idle, since := None, dirty := false, dirtySince := None);
          PutBut(s, i, v);
          JoinIdle(Put(s, i, v), i);
        }
      case _ =>
        var w := Settle(s, i, outcome, now, jitter).entries[i];
        PutBut(s, i, w);
        JoinRetries(Put(s, i, w), i);
    }
  }

  lemma JobMeasureInv(s: Sched, i: nat, backlog: int)
    requires InvBut(s, i) && s.entries[i].phase.Running? && Coherent(s.entries[i])
    ensures InvBut(TakeJobMeasure(s, i, backlog), i)
  {
    hide Placed;
    PutBut(s, i, TakeJobMeasure(s, i, backlog).entries[i]);
    MeasuredBut(Put(s, i, TakeJobMeasure(s, i, backlog).entries[i]), i, TakeJobMeasure(s, i, backlog).measured);
  }

  lemma MeasuredBut(s: Sched, i: nat, m: set<Key>)
    requires InvBut(s, i)
    ensures InvBut(s.(measured := m), i)
  {
  }

  lemma FinishInv(s: Sched, i: nat, backlog: int, outcome: Outcome, now: Time, jitter: real)
    requires Inv(s) && i < |s.entries| && s.entries[i].phase.Running?
    ensures Indexed(s) && Inv(Finish(s, i, backlog, outcome, now, jitter))
  {
    var s0 := s.(running := s.running - 1);
    LeaveRunning(s, i);
    assert Coherent(s0.entries[i]);
    JobMeasureInv(s0, i, backlog);
    var s1 := TakeJobMeasure(s0, i, backlog);
    SettleInv(s1, i, outcome, now, jitter);
    var s2 := Settle(s1, i, outcome, now, jitter);
    ForgetInv(s2, i);
    BumpInv(Forget(s2, i));
  }
}
