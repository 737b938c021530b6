/**
 The consolidation scheduler's state (internal/aml/scheduler.go), and each of
 its lock-held sections as a function on it.

 An entry (*schedUser) is named by its index in `entries`: indices are never
 reused, so that a caller that keeps an entry across an unlock (a worker, a
 WaitBacklog, a Search's release) keeps a name that may, or may not, still be
 the one `users` gives for its key. A change channel is a number: replacing it
 takes the next one. The retry heap is the sequence of its entries in the
 order of its Less, which the sequence numbers make total.
 */
module SchedulerState {
  import opened Common
  import RetryDelay

  type Key = string
  type Time = int

  datatype Phase = Idle | Queued | Running | BackingOff

  datatype User = User(
    key: Key, phase: Phase, holds: int, waiters: int,
    backlog: int, added: int, dirty: bool, measured: bool,
    failures: nat, retryAt: Time, seqNo: int,
    since: Option<Time>, dirtySince: Option<Time>)

  datatype Sched = Sched(
    maxUsers: int, entries: seq<User>, users: map<Key, nat>, measured: set<Key>,
    queue: seq<nat>, retries: seq<nat>, running: int, retrySeq: int,
    changed: nat, started: bool, stopped: bool, draining: bool)

  /** How a job ended (jobOutcome): cut by the workers' context, or by its error. */
  datatype Outcome = JobOk | JobFailed | JobPaused | JobCanceled

  function NewUser(key: Key): User {
    User(key, Idle, 0, 0, 0, 0, false, false, 0, 0, 0, None, None)
  }

  function NewSched(maxUsers: int): Sched {
    Sched(maxUsers, [], map[], {}, [], [], 0, 0, 0, false, false, false)
  }

  function Active(s: Sched): int {
    |s.queue| + s.running + |s.retries|
  }

  ghost predicate Indexed(s: Sched) {
    && (forall k :: k in s.users ==> s.users[k] < |s.entries|)
    && (forall p :: 0 <= p < |s.queue| ==> s.queue[p] < |s.entries|)
    && (forall p :: 0 <= p < |s.retries| ==> s.retries[p] < |s.entries|)
  }

  // ---- what the sections are made of ----

  /** changedLocked: the channel is replaced; the old one is for the caller to close. */
  function Bump(s: Sched): Sched {
    s.(changed := s.changed + 1)
  }

  function Put(s: Sched, i: nat, u: User): Sched
    requires i < |s.entries|
  {
    s.(entries := s.entries[i := u])
  }

  function Enqueue(s: Sched, i: nat): Sched
    requires i < |s.entries|
  {
    Put(s, i, s.entries[i].(phase := Queued)).(queue := s.queue + [i])
  }

  predicate Forgettable(u: User) {
    u.phase.Idle? && u.holds == 0 && u.waiters == 0 && u.backlog <= 0
  }

  function Forget(s: Sched, i: nat): Sched
    requires i < |s.entries|
  {
    var u := s.entries[i];
    if Forgettable(u) && u.key in s.users && s.users[u.key] == i then s.(users := s.users - {u.key}) else s
  }

  /** The entry of key, made when users has none. */
  function Know(s: Sched, key: Key): Sched {
    if key in s.users then s
    else s.(entries := s.entries + [NewUser(key)], users := s.users[key := |s.entries|])
  }

  predicate Full(s: Sched, key: Key)
    requires key in s.users ==> s.users[key] < |s.entries|
  {
    (key !in s.users || s.entries[s.users[key]].phase.Idle?) && Active(s) >= s.maxUsers
  }

  // ---- Notify ----

  function Notify(s: Sched, key: Key, chars: int, now: Time): Sched
    requires key in s.users ==> s.users[key] < |s.entries|
  {
    if Full(s, key) then s
    else
      var s1 := Know(s, key);
      Bump(Told(s1, s1.users[key], chars, now))
  }

  function Told(s: Sched, i: nat, chars: int, now: Time): Sched
    requires i < |s.entries|
  {
    var u := s.entries[i].(backlog := s.entries[i].backlog + chars);
    match u.phase
    case Idle => Enqueue(Put(s, i, u.(since := Some(now))), i)
    case Running =>
      var v := u.(added := u.added + chars);
      Put(s, i, if v.dirty then v else v.(dirty := true, dirtySince := Some(now)))
    case _ => Put(s, i, u)
  }

  // ---- WaitBacklog ----

  datatype WaitNext = Return | Sleep(channel: nat)

  predicate KeepsWaiting(s: Sched, i: nat, limit: int)
    requires i < |s.entries|
  {
    && s.entries[i].backlog > limit && !s.entries[i].phase.BackingOff?
    && !s.stopped && !s.draining
  }

  function LeaveWait(s: Sched, i: nat): Sched
    requires i < |s.entries|
  {
    Forget(Put(s, i, s.entries[i].(waiters := s.entries[i].waiters - 1)), i)
  }

  /** The loop's test and body, up to the sleep or the return, of a caller waiting on entry i. */
  function WaitLoop(s: Sched, i: nat, limit: int, now: Time): (Sched, WaitNext)
    requires i < |s.entries|
  {
    if !KeepsWaiting(s, i, limit) then (LeaveWait(s, i), Return)
    else if s.entries[i].phase.Idle? then
      if Active(s) >= s.maxUsers then (LeaveWait(s, i), Return)
      else
        var s1 := Bump(Enqueue(Put(s, i, s.entries[i].(since := Some(now))), i));
        (s1, Sleep(s1.changed))
    else (s, Sleep(s.changed))
  }

  function EnterWait(s: Sched, i: nat): Sched
    requires i < |s.entries|
  {
    Put(s, i, s.entries[i].(waiters := s.entries[i].waiters + 1))
  }

  // ---- Hold and its release ----

  function Hold(s: Sched, key: Key): Sched
    requires key in s.users ==> s.users[key] < |s.entries|
  {
    var s1 := Know(s, key);
    var i := s1.users[key];
    Put(s1, i, s1.entries[i].(holds := s1.entries[i].holds + 1))
  }

  function Release(s: Sched, i: nat): Sched
    requires i < |s.entries|
  {
    Bump(Forget(Put(s, i, s.entries[i].(holds := s.entries[i].holds - 1)), i))
  }

  // ---- Drain, Run, Measured ----

  function Drain(s: Sched): Sched {
    Bump(s.(draining := true))
  }

  function RunStarts(s: Sched): Sched {
    s.(started := true, stopped := false)
  }

  function RunEnds(s: Sched): Sched {
    Bump(s.(started := false, stopped := true))
  }

  predicate TakesMeasure(s: Sched, key: Key)
    requires key in s.users ==> s.users[key] < |s.entries|
  {
    && key in s.users
    && !s.entries[s.users[key]].measured
    && !s.entries[s.users[key]].phase.Running?
  }

  function Measured(s: Sched, key: Key, chars: int): Sched
    requires key in s.users ==> s.users[key] < |s.entries|
  {
    if TakesMeasure(s, key) then
      var i := s.users[key];
      Bump(Put(s, i, s.entries[i].(backlog := chars, measured := true)).(measured := s.measured + {key}))
    else s
  }

  // ---- next ----

  /** retryDueLocked: the entries whose backoff has ended join the queue, the earliest first. */
  function RetryDue(s: Sched, now: Time): (r: Sched)
    requires Indexed(s)
    ensures |r.entries| == |s.entries| && Indexed(r)
    decreases |s.retries|
  {
    if |s.retries| > 0 && s.entries[s.retries[0]].retryAt <= now
    then RetryDue(Enqueue(s.(retries := s.retries[1..]), s.retries[0]), now)
    else s
  }

  /** firstUnheldLocked: the place in the queue of the first entry no Search holds. */
  function FirstUnheld(s: Sched, from: nat): (p: nat)
    requires Indexed(s) && from <= |s.queue|
    ensures from <= p <= |s.queue|
    ensures p < |s.queue| ==> s.entries[s.queue[p]].holds == 0
    ensures forall q :: from <= q < p ==> s.entries[s.queue[q]].holds != 0
    decreases |s.queue| - from
  {
    if from == |s.queue| || s.entries[s.queue[from]].holds == 0 then from else FirstUnheld(s, from + 1)
  }

  function Start(s: Sched, p: nat): Sched
    requires p < |s.queue| && s.queue[p] < |s.entries|
  {
    var i := s.queue[p];
    Put(s, i, s.entries[i].(phase := Running, added := 0, dirty := false, dirtySince := None))
      .(queue := Remove(s.queue, p), running := s.running + 1)
  }

  datatype Next = Exit | Runs(entry: nat) | Waits(due: Option<Time>)

  /** next's second section, which has read the clock at now. */
  function TakeNext(s: Sched, now: Time): (r: (Sched, Next))
    requires Indexed(s)
    ensures |r.0.entries| == |s.entries|
    ensures r.1.Runs? ==> r.1.entry < |s.entries|
  {
    if s.draining then (s, Exit)
    else
      var s1 := RetryDue(s, now);
      var p := FirstUnheld(s1, 0);
      if p < |s1.queue| then (Start(s1, p), Runs(s1.queue[p]))
      else (s1, Waits(if |s1.retries| > 0 then Some(s1.entries[s1.retries[0]].retryAt) else None))
  }

  // ---- finish ----

  /** retryHeap's Less on two entries. */
  predicate Before(entries: seq<User>, i: nat, j: nat)
    requires i < |entries| && j < |entries|
  {
    if entries[i].retryAt != entries[j].retryAt then entries[i].retryAt < entries[j].retryAt
    else entries[i].seqNo < entries[j].seqNo
  }

  /** heap.Push: entry i takes its place among the entries r of the heap. */
  function PushRetry(entries: seq<User>, r: seq<nat>, i: nat): (r': seq<nat>)
    requires i < |entries| && forall p :: 0 <= p < |r| ==> r[p] < |entries|
    ensures |r'| == |r| + 1
    ensures multiset(r') == multiset(r) + multiset{i}
  {
    if |r| == 0 then [i]
    else if Before(entries, i, r[0]) then [i] + r
    else
      assert r == [r[0]] + r[1..];
      [r[0]] + PushRetry(entries, r[1..], i)
  }

  function DelayOf(u: User, outcome: Outcome, jitter: real): int {
    if outcome.JobPaused? then RetryDelay.RESERVE_PAUSE else RetryDelay.Delay(u.failures, jitter)
  }

  function TakeJobMeasure(s: Sched, i: nat, backlog: int): (r: Sched)
    requires i < |s.entries|
    ensures |r.entries| == |s.entries| && (Indexed(s) ==> Indexed(r))
  {
    var u := s.entries[i];
    if backlog >= 0 then
      Put(s, i, u.(backlog := backlog + u.added, measured := true, added := 0)).(measured := s.measured + {u.key})
    else Put(s, i, u.(added := 0))
  }

  function Settle(s: Sched, i: nat, outcome: Outcome, now: Time, jitter: real): (r: Sched)
    requires Indexed(s) && i < |s.entries|
    ensures |r.entries| == |s.entries|
  {
    var u := s.entries[i];
    match outcome
    case JobCanceled => Enqueue(Put(s, i, u.(dirty := false, dirtySince := None)), i)
    case JobOk =>
      if u.dirty then
        Enqueue(Put(s, i, u.(failures := 0, since := u.dirtySince, dirty := false, dirtySince := None)), i)
      else Put(s, i, u.(failures := 0, phase := Idle, since := None, dirty := false, dirtySince := None))
    case _ =>
      var v := u.(failures := u.failures + 1);
      var w := v.(phase := BackingOff, retryAt := now + DelayOf(v, outcome, jitter), seqNo := s.retrySeq + 1,
                  dirty := false, dirtySince := None);
      var s1 := Put(s, i, w).(retrySeq := s.retrySeq + 1);
      s1.(retries := PushRetry(s1.entries, s1.retries, i))
  }

  function Finish(s: Sched, i: nat, backlog: int, outcome: Outcome, now: Time, jitter: real): Sched
    requires Indexed(s) && i < |s.entries|
  {
    var s1 := TakeJobMeasure(s.(running := s.running - 1), i, backlog);
    Bump(Forget(Settle(s1, i, outcome, now, jitter), i))
  }
}
