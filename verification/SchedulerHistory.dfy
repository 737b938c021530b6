/**
 No work is lost: the scheduler against an observer that sees only which
 notifications it accepted, and when jobs start and how they end.
 */
module SchedulerHistory {
  import opened Common
  import opened SchedulerState
  import opened SchedulerInvariant
  import opened SchedulerSystem
  import opened SchedulerEffects
  import opened SchedulerRuns
  import opened SchedulerViews

  /** Heard: an accepted notification, or a wait that queued its user, with the time it came with. */
  datatype Obs = Heard(key: Key, at: Time) | Begun(key: Key) | Done(key: Key, outcome: Outcome)

  type Log = seq<Obs>

  /** A successful job that began after the n-th observation has ended. */
  ghost predicate Covered(log: Log, n: nat, k: Key) {
    exists b, d ::
      && n < b < d < |log| && log[b] == Begun(k) && log[d] == Done(k, JobOk)
      && forall m :: b < m < d ==> !(log[m].Done? && log[m].key == k)
  }

  ghost predicate HeardOf(log: Log, n: int, k: Key) {
    0 <= n < |log| && log[n].Heard? && log[n].key == k
  }

  /** Something was heard of k, or a job of it ended without success, since its last job began. */
  ghost predicate Owed(log: Log, k: Key) {
    exists n :: 0 <= n < |log| && log[n].key == k
                && (log[n].Heard? || (log[n].Done? && !log[n].outcome.JobOk?))
                && forall m :: n < m < |log| ==> log[m] != Begun(k)
  }

  // ---- the observer's books: what is not covered, in order ----

  /** open: the places in the log of what is not covered; begun: how many of them the job underway came after. */
  datatype Books = Books(open: seq<nat>, begun: nat, job: Option<nat>, owed: bool)

  ghost function Keep(log: Log, k: Key): Books {
    if log == [] then Books([], 0, None, false)
    else
      var n := |log| - 1;
      var b := Keep(log[..n], k);
      if log[n].key != k then b
      else
        match log[n]
        case Heard(_, _) => b.(open := b.open + [n], owed := true)
        case Begun(_) => b.(begun := |b.open|, job := Some(n), owed := false)
        case Done(_, outcome) =>
          if outcome.JobOk? then
            if b.job.Some? && b.begun <= |b.open| then b.(open := b.open[b.begun..], job := None, begun := 0)
            else b.(job := None, begun := 0)
          else b.(job := None, begun := 0, owed := true)
  }

  /** The books agree with the log. */
  ghost predicate Right(log: Log, k: Key, b: Books) {
    && RightOrder(log, k, b)
    && RightJob(log, k, b)
    && (forall n :: HeardOf(log, n, k) ==> (n in b.open <==> !Covered(log, n, k)))
    && (b.owed <==> Owed(log, k))
  }

  ghost predicate RightOrder(log: Log, k: Key, b: Books) {
    && b.begun <= |b.open|
    && (forall j :: 0 <= j < |b.open| ==> HeardOf(log, b.open[j], k))
    && (forall i, j :: 0 <= i < j < |b.open| ==> b.open[i] < b.open[j])
  }

  ghost predicate RightJob(log: Log, k: Key, b: Books)
    requires b.begun <= |b.open|
  {
    && (b.job.Some? ==>
        && b.job.value < |log| && log[b.job.value] == Begun(k)
        && (forall m :: b.job.value < m < |log| && log[m].key == k ==> log[m].Heard?)
        && (forall j :: 0 <= j < b.begun ==> b.open[j] < b.job.value)
        && (forall j :: b.begun <= j < |b.open| ==> b.job.value < b.open[j]))
    && (b.job.None? ==>
        forall m :: 0 <= m < |log| && log[m] == Begun(k) ==>
          exists d :: m < d < |log| && log[d].Done? && log[d].key == k)
  }

  lemma CoveredGrows(log: Log, o: Obs, n: nat, k: Key)
    requires Covered(log, n, k)
    ensures Covered(log + [o], n, k)
  {
    var b, d :| n < b < d < |log| && log[b] == Begun(k) && log[d] == Done(k, JobOk)
      && forall m :: b < m < d ==> !(log[m].Done? && log[m].key == k);
    var l := log + [o];
    assert l[b] == Begun(k) && l[d] == Done(k, JobOk);
    assert forall m :: b < m < d ==> !(l[m].Done? && l[m].key == k);
  }

  /** What is covered with o appended was covered, or o ends the job underway, which began after it. */
  lemma CoveredLast(log: Log, o: Obs, n: nat, k: Key, b: Books)
    requires Right(log, k, b) && Covered(log + [o], n, k)
    ensures Covered(log, n, k) || (o == Done(k, JobOk) && b.job.Some? && n < b.job.value)
  {
    var l := log + [o];
    var x, d :| n < x < d < |l| && l[x] == Begun(k) && l[d] == Done(k, JobOk)
      && forall m :: x < m < d ==> !(l[m].Done? && l[m].key == k);
    if d < |log| {
      assert log[x] == Begun(k) && log[d] == Done(k, JobOk);
      assert forall m :: x < m < d ==> log[m] == l[m];
      assert Covered(log, n, k);
    } else {
      assert log[x] == Begun(k);
      assert forall m :: x < m < |log| ==> log[m] == l[m];
    }
  }

  lemma CoveredByJob(log: Log, n: nat, k: Key, b: Books)
    requires Right(log, k, b) && b.job.Some? && n < b.job.value
    ensures Covered(log + [Done(k, JobOk)], n, k)
  {
    var l := log + [Done(k, JobOk)];
    var x := b.job.value;
    assert forall m :: x < m < |log| ==> l[m] == log[m];
    assert n < x < |log| < |l| && l[x] == Begun(k) && l[|log|] == Done(k, JobOk);
  }

  lemma OwedStep(log: Log, o: Obs, k: Key)
    ensures Owed(log + [o], k) <==>
              (if o.key != k then Owed(log, k)
               else match o
                 case Heard(_, _) => true
                 case Begun(_) => false
                 case Done(_, outcome) => !outcome.JobOk? || Owed(log, k))
  {
    var l := log + [o];
    if Owed(l, k) {
      var n :| 0 <= n < |l| && l[n].key == k && (l[n].Heard? || (l[n].Done? && !l[n].outcome.JobOk?))
        && forall m :: n < m < |l| ==> l[m] != Begun(k);
      if n < |log| {
        assert log[n] == l[n] && l[|log|] == o;
        assert forall m :: n < m < |log| ==> log[m] == l[m];
        assert Owed(log, k);
      }
    }
    if Owed(log, k) && o != Begun(k) {
      var n :| 0 <= n < |log| && log[n].key == k && (log[n].Heard? || (log[n].Done? && !log[n].outcome.JobOk?))
        && forall m :: n < m < |log| ==> log[m] != Begun(k);
      assert l[n] == log[n] && forall m :: n < m < |l| ==> l[m] == if m < |log| then log[m] else o;
      assert Owed(l, k);
    }
    assert l[|log|] == o;
  }

  lemma OpenStep(log: Log, o: Obs, k: Key, b: Books, b': Books)
    requires Right(log, k, b)
    requires if o.key == k && o.Heard? then b'.open == b.open + [|log|]
             else if o == Done(k, JobOk) && b.job.Some? then b'.open == b.open[b.begun..]
             else b'.open == b.open
    ensures forall n :: HeardOf(log + [o], n, k) ==> (n in b'.open <==> !Covered(log + [o], n, k))
  {
    hide Covered;
    var l := log + [o];
    forall n | HeardOf(l, n, k)
      ensures n in b'.open <==> !Covered(l, n, k)
    {
      if n < |log| {
        OpenOld(log, o, k, b, b', n);
      } else {
        NotCoveredYet(l, n, k);
      }
    }
  }

  /** The last thing heard is not covered. */
  lemma NotCoveredYet(log: Log, n: nat, k: Key)
    requires n + 1 == |log|
    ensures !Covered(log, n, k)
  {
  }

  /** What was heard before the last observation. */
  lemma OpenOld(log: Log, o: Obs, k: Key, b: Books, b': Books, n: nat)
    requires Right(log, k, b) && n < |log| && HeardOf(log + [o], n, k)
    requires if o.key == k && o.Heard? then b'.open == b.open + [|log|]
             else if o == Done(k, JobOk) && b.job.Some? then b'.open == b.open[b.begun..]
             else b'.open == b.open
    ensures n in b'.open <==> !Covered(log + [o], n, k)
  {
    hide Covered, Owed;
    assert HeardOf(log, n, k);
    if Covered(log, n, k) {
      CoveredGrows(log, o, n, k);
    } else {
      if Covered(log + [o], n, k) {
        CoveredLast(log, o, n, k, b);
      }
      if o == Done(k, JobOk) && b.job.Some? && n < b.job.value {
        CoveredByJob(log, n, k, b);
      }
      assert n in b.open;
      var j :| 0 <= j < |b.open| && b.open[j] == n;
      if o == Done(k, JobOk) && b.job.Some? && j >= b.begun {
        assert b'.open[j - b.begun] == n;
      }
    }
  }

  lemma OrderStep(log: Log, o: Obs, k: Key)
    requires RightOrder(log, k, Keep(log, k))
    ensures RightOrder(log + [o], k, Keep(log + [o], k))
  {
    hide RightOrder;
    var l := log + [o];
    var b := Keep(log, k);
    assert l[..|log|] == log;
    OrderWider(log, o, k, b);
    if o.Heard? && o.key == k {
      OrderAppend(log, o, k, b);
    } else if o.key == k {
      OrderSuffix(l, k, b);
    }
  }

  lemma OrderWider(log: Log, o: Obs, k: Key, b: Books)
    requires RightOrder(log, k, b)
    ensures RightOrder(log + [o], k, b) && b.begun <= |b.open|
  {
    forall j | 0 <= j < |b.open|
      ensures HeardOf(log + [o], b.open[j], k)
    {
      assert HeardOf(log, b.open[j], k);
    }
  }

  lemma OrderAppend(log: Log, o: Obs, k: Key, b: Books)
    requires RightOrder(log, k, b) && o.Heard? && o.key == k
    ensures RightOrder(log + [o], k, b.(open := b.open + [|log|], owed := true))
  {
    forall j | 0 <= j < |b.open|
      ensures HeardOf(log + [o], b.open[j], k) && b.open[j] < |log|
    {
      assert HeardOf(log, b.open[j], k);
    }
  }

  /** A job that begins, or ends, leaves the order as it was, with what it covers left out. */
  lemma OrderSuffix(log: Log, k: Key, b: Books)
    requires RightOrder(log, k, b)
    ensures forall b': Books :: b'.open == b.open && b'.begun <= |b.open| ==> RightOrder(log, k, b')
    ensures forall b': Books :: b.begun <= |b.open| && b'.open == b.open[b.begun..] && b'.begun == 0 ==>
              RightOrder(log, k, b')
  {
  }

  lemma JobStep(log: Log, o: Obs, k: Key)
    requires RightOrder(log, k, Keep(log, k)) && RightJob(log, k, Keep(log, k))
    requires RightOrder(log + [o], k, Keep(log + [o], k))
    ensures RightJob(log + [o], k, Keep(log + [o], k))
  {
    var l := log + [o];
    var b, b' := Keep(log, k), Keep(l, k);
    assert l[..|log|] == log;
    forall j | 0 <= j < |b.open|
      ensures b.open[j] < |log|
    {
      assert HeardOf(log, b.open[j], k);
    }
    if b'.job.None? {
      forall m | 0 <= m < |l| && l[m] == Begun(k)
        ensures exists d :: m < d < |l| && l[d].Done? && l[d].key == k
      {
        assert log[m] == Begun(k);
        if o.Done? && o.key == k {
          assert l[|log|].Done?;
        } else {
          var d :| m < d < |log| && log[d].Done? && log[d].key == k;
          assert l[d].Done?;
        }
      }
    }
  }

  lemma RightStep(log: Log, o: Obs, k: Key)
    requires Right(log, k, Keep(log, k))
    ensures Right(log + [o], k, Keep(log + [o], k))
  {
    hide RightJob, Covered, Owed;
    assert (log + [o])[..|log|] == log;
    OrderStep(log, o, k);
    JobStep(log, o, k);
    OwedStep(log, o, k);
    OpenStep(log, o, k, Keep(log, k), Keep(log + [o], k));
  }

  /** The books are right about every log. */
  lemma {:induction false} BooksRight(log: Log, k: Key)
    ensures Right(log, k, Keep(log, k))
  {
    if log != [] {
      var n := |log| - 1;
      BooksRight(log[..n], k);
      assert log[..n] + [log[n]] == log;
      RightStep(log[..n], log[n], k);
    }
  }

  // ---- the failures in a row ----

  /** The jobs of k that failed or were paused since its last successful one. */
  ghost function FailedSince(log: Log, k: Key): set<nat> {
    set n: nat | n < |log| && Fails(log[n], k) && forall m :: n < m < |log| ==> log[m] != Done(k, JobOk)
  }

  ghost predicate Fails(o: Obs, k: Key) {
    o == Done(k, JobFailed) || o == Done(k, JobPaused)
  }

  ghost function InARow(log: Log, k: Key): nat {
    if log == [] then 0
    else
      var before := InARow(log[..|log| - 1], k);
      var o := log[|log| - 1];
      if o == Done(k, JobOk) then 0 else if Fails(o, k) then before + 1 else before
  }

  lemma {:induction false} InARowIs(log: Log, k: Key)
    ensures InARow(log, k) == |FailedSince(log, k)|
  {
    hide FailedSince;
    if log == [] {
      NoneFailed(log, k);
    } else {
      InARowIs(log[..|log| - 1], k);
      FailedStep(log, k);
    }
  }

  lemma NoneFailed(log: Log, k: Key)
    requires log == [] || log[|log| - 1] == Done(k, JobOk)
    ensures FailedSince(log, k) == {}
  {
  }

  lemma FailedStep(log: Log, k: Key)
    requires log != []
    ensures var o, before := log[|log| - 1], |FailedSince(log[..|log| - 1], k)|;
            |FailedSince(log, k)| == if o == Done(k, JobOk) then 0 else if Fails(o, k) then before + 1 else before
  {
    var n := |log| - 1;
    var o, before := log[n], FailedSince(log[..n], k);
    if o == Done(k, JobOk) {
      NoneFailed(log, k);
    } else {
      forall j: nat | j < n
        ensures j in FailedSince(log, k) <==> j in before
      {
        assert forall m :: j < m < n ==> log[..n][m] == log[m];
      }
      assert n !in before;
      assert FailedSince(log, k) == before + (if Fails(o, k) then {n} else {});
    }
  }

  // ---- the scheduler and the observer ----

  /** What an observer sees of a step. */
  ghost function Seen(g: System, e: Event): Log
    requires WellFormed(g) && Enabled(g, e)
  {
    match e
    case Notifies(key, chars, now) => if Accepts(g.s, key) then [Heard(key, now)] else []
    case Waits(w, key, limit, now) =>
      if key in g.s.users && WaitQueues(g.s, g.s.users[key], limit) then [Heard(key, now)] else []
    case WaiterWakes(w, gone) =>
      var x := g.waiters[w];
      if !gone && WaitQueues(g.s, x.entry, x.limit) then [Heard(g.s.entries[x.entry].key, x.now)] else []
    case Looks(w) =>
      var n := TakeNext(g.s, g.workers[w].now).1;
      if n.Runs? then [Begun(g.s.entries[n.entry].key)] else []
    case Finishes(w, backlog, outcome, now, jitter) => [Done(g.s.entries[g.workers[w].entry].key, outcome)]
    case _ => []
  }

  ghost function LogOf(states: seq<System>, events: seq<Event>, i: nat): Log
    requires IsRun(states, events) && i <= |events|
  {
    if i == 0 then []
    else
      assert Step(states[i - 1], events[i - 1], states[i - 1 + 1]);
      LogOf(states, events, i - 1) + Seen(states[i - 1], events[i - 1])
  }

  /** The books' places are of things heard. */
  ghost predicate Opened(log: Log, b: Books) {
    b.begun <= |b.open| && forall j :: 0 <= j < |b.open| ==> b.open[j] < |log| && log[b.open[j]].Heard?
  }

  /** The user's record is what the books say. */
  ghost predicate Linked(v: View, log: Log, b: Books)
    requires Opened(log, b)
  {
    && (v.phase.Idle? <==> b.open == [])
    && (b.open != [] ==> v.since == Some(log[b.open[0]].at))
    && (v.phase.Running? <==> b.job.Some?)
    && (v.phase.Running? ==>
        && (v.dirty <==> b.begun < |b.open|)
        && (v.dirty ==> v.dirtySince == Some(log[b.open[b.begun]].at)))
    && (b.owed ==> v.phase.Queued? || v.phase.BackingOff? || (v.phase.Running? && v.dirty))
  }

  ghost predicate LinkedAll(s: Sched, log: Log)
    requires Known(s)
  {
    forall k :: Agrees(ViewOf(s, k), log, k)
  }

  ghost predicate Agrees(v: View, log: Log, k: Key) {
    Right(log, k, Keep(log, k)) && Linked(v, log, Keep(log, k)) && v.failures == InARow(log, k)
  }

  lemma KeepOther(log: Log, o: Obs, k: Key, v: View)
    requires Agrees(v, log, k) && o.key != k
    ensures Agrees(v, log + [o], k)
  {
    hide Covered, Owed, RightJob;
    assert (log + [o])[..|log|] == log;
    RightStep(log, o, k);
  }

  lemma Falling(v: View, v': View, log: Log, k: Key)
    requires Agrees(v, log, k) && Falls(v, v')
    ensures Agrees(v', log, k)
  {
  }

  lemma HeardAgrees(v: View, log: Log, k: Key, chars: int, now: Time)
    requires Agrees(v, log, k)
    ensures Agrees(ToldView(v, chars, now), log + [Heard(k, now)], k)
  {
    hide Covered, Owed, RightJob;
    var l := log + [Heard(k, now)];
    assert l[..|log|] == log;
    RightStep(log, Heard(k, now), k);
    var b, b' := Keep(log, k), Keep(l, k);
    assert forall j :: 0 <= j < |b.open| ==> l[b.open[j]] == log[b.open[j]];
  }

  lemma BegunAgrees(v: View, log: Log, k: Key)
    requires Agrees(v, log, k) && (v.phase.Queued? || v.phase.BackingOff?)
    ensures Agrees(StartView(v), log + [Begun(k)], k)
  {
    hide Covered, Owed, RightJob;
    var l := log + [Begun(k)];
    assert l[..|log|] == log;
    RightStep(log, Begun(k), k);
    var b := Keep(log, k);
    assert forall j :: 0 <= j < |b.open| ==> l[b.open[j]] == log[b.open[j]];
  }

  lemma DoneAgrees(v: View, log: Log, k: Key, backlog: int, outcome: Outcome)
    requires Agrees(v, log, k) && v.phase.Running?
    ensures Agrees(DoneView(v, backlog, outcome), log + [Done(k, outcome)], k)
  {
    hide Right, Linked;
    RightStep(log, Done(k, outcome), k);
    OpenInLog(log, k, Keep(log, k));
    OpenInLog(log + [Done(k, outcome)], k, Keep(log + [Done(k, outcome)], k));
    DoneLinked(v, log, k, backlog, outcome);
  }

  lemma OpenInLog(log: Log, k: Key, b: Books)
    requires Right(log, k, b)
    ensures Opened(log, b)
  {
    hide Covered, Owed, RightJob;
  }

  lemma DoneLinked(v: View, log: Log, k: Key, backlog: int, outcome: Outcome)
    requires Opened(log, Keep(log, k)) && Linked(v, log, Keep(log, k)) && v.phase.Running?
    requires Opened(log + [Done(k, outcome)], Keep(log + [Done(k, outcome)], k))
    ensures var l := log + [Done(k, outcome)];
            Linked(DoneView(v, backlog, outcome), l, Keep(l, k))
  {
    var l := log + [Done(k, outcome)];
    assert l[..|log|] == log;
    var b := Keep(log, k);
    assert forall j :: 0 <= j < |b.open| ==> l[b.open[j]] == log[b.open[j]];
  }

  // ---- every step, every run ----

  /** Only k's view changes, with what is seen of k. */
  lemma OnlyLinked(s: Sched, t: Sched, k: Key, v: View, log: Log, o: Obs)
    requires Known(s) && Known(t) && LinkedAll(s, log) && OnlyView(s, t, k, v) && o.key == k
    requires Agrees(v, log + [o], k)
    ensures LinkedAll(t, log + [o])
  {
    forall j
      ensures Agrees(ViewOf(t, j), log + [o], j)
    {
      assert Agrees(ViewOf(s, j), log, j);
      if j != k {
        KeepOther(log, o, j, ViewOf(s, j));
      }
    }
  }

  lemma SameLinked(s: Sched, t: Sched, log: Log)
    requires Known(s) && Known(t) && LinkedAll(s, log) && SameViews(s, t)
    ensures LinkedAll(t, log)
  {
  }

  lemma HeardLinked(s: Sched, t: Sched, k: Key, chars: int, now: Time, log: Log)
    requires Known(s) && Known(t) && LinkedAll(s, log) && OnlyView(s, t, k, ToldView(ViewOf(s, k), chars, now))
    ensures LinkedAll(t, log + [Heard(k, now)])
  {
    assert Agrees(ViewOf(s, k), log, k);
    HeardAgrees(ViewOf(s, k), log, k, chars, now);
    OnlyLinked(s, t, k, ToldView(ViewOf(s, k), chars, now), log, Heard(k, now));
  }

  lemma LooksLinked(g: System, w: nat, log: Log)
    requires SysInv(g) && WellFormed(g) && Enabled(g, Looks(w)) && Known(g.s) && LinkedAll(g.s, log)
    ensures Known(Apply(g, Looks(w)).s) && LinkedAll(Apply(g, Looks(w)).s, log + Seen(g, Looks(w)))
  {
    hide SysInv, Inv, TakeNext;
    SysParts(g);
    var now := g.workers[w].now;
    TakeNextView(g.s, now);
    var (t, n) := TakeNext(g.s, now);
    forall k
      ensures Agrees(ViewOf(t, k), log + Seen(g, Looks(w)), k)
    {
      assert Agrees(ViewOf(g.s, k), log, k);
      if n.Runs? {
        var key := g.s.entries[n.entry].key;
        if k == key {
          BegunAgrees(ViewOf(g.s, k), log, k);
        } else {
          Falling(ViewOf(g.s, k), ViewOf(t, k), log, k);
          KeepOther(log, Begun(key), k, ViewOf(t, k));
        }
      } else {
        Falling(ViewOf(g.s, k), ViewOf(t, k), log, k);
        assert log + [] == log;
      }
    }
  }

  lemma FinishesLinked(g: System, e: Event, log: Log)
    requires SysInv(g) && WellFormed(g) && e.Finishes? && Enabled(g, e) && Known(g.s) && LinkedAll(g.s, log)
    ensures Known(Apply(g, e).s) && LinkedAll(Apply(g, e).s, log + Seen(g, e))
  {
    hide SysInv, Inv, Finish;
    SysParts(g);
    SysThreads(g);
    var i := g.workers[e.w].entry;
    FinishView(g.s, i, e.backlog, e.outcome, e.now, e.jitter);
    var k := g.s.entries[i].key;
    assert Agrees(ViewOf(g.s, k), log, k);
    DoneAgrees(ViewOf(g.s, k), log, k, e.backlog, e.outcome);
    OnlyLinked(g.s, Apply(g, e).s, k, DoneView(ViewOf(g.s, k), e.backlog, e.outcome), log, Done(k, e.outcome));
  }

  lemma WaitsLinked(g: System, e: Event, log: Log)
    requires SysInv(g) && WellFormed(g) && e.Waits? && Enabled(g, e) && Known(g.s) && LinkedAll(g.s, log)
    requires e.key in g.s.users
    ensures Known(Apply(g, e).s) && LinkedAll(Apply(g, e).s, log + Seen(g, e))
  {
    hide SysInv, Inv, WaitLoop, OnlyView, SameViews, LinkedAll;
    SysParts(g);
    var i := g.s.users[e.key];
    EnterWaitView(g.s, e.key);
    EnterWaitInv(g.s, e.key);
    EntryInv(g.s, i);
    var s1 := EnterWait(g.s, i);
    WaitLoopView(s1, i, e.limit, e.now);
    SameLinked(g.s, s1, log);
    var t := WaitLoop(s1, i, e.limit, e.now).0;
    if WaitQueues(g.s, i, e.limit) {
      HeardLinked(s1, t, e.key, 0, e.now, log);
    } else {
      SameLinked(s1, t, log);
      assert log + [] == log;
    }
  }

  lemma WaiterWakesLinked(g: System, e: Event, log: Log)
    requires SysInv(g) && WellFormed(g) && e.WaiterWakes? && Enabled(g, e) && Known(g.s) && LinkedAll(g.s, log)
    ensures Known(Apply(g, e).s) && LinkedAll(Apply(g, e).s, log + Seen(g, e))
  {
    hide SysInv, Inv, WaitLoop, LeaveWait, OnlyView, SameViews, LinkedAll;
    SysParts(g);
    SysThreads(g);
    WaiterCount(g, e.w);
    var x := g.waiters[e.w];
    assert log + [] == log;
    if e.gone {
      LeaveWaitView(g.s, x.entry);
      SameLinked(g.s, LeaveWait(g.s, x.entry), log);
    } else {
      WaitLoopView(g.s, x.entry, x.limit, x.now);
      var t := WaitLoop(g.s, x.entry, x.limit, x.now).0;
      if WaitQueues(g.s, x.entry, x.limit) {
        HeardLinked(g.s, t, g.s.entries[x.entry].key, 0, x.now, log);
      } else {
        SameLinked(g.s, t, log);
      }
    }
  }

  lemma MeasuresLinked(s: Sched, key: Key, chars: int, log: Log)
    requires Known(s) && LinkedAll(s, log)
    ensures Known(Measured(s, key, chars)) && LinkedAll(Measured(s, key, chars), log)
  {
    MeasuredView(s, key, chars);
    forall k
      ensures Agrees(ViewOf(Measured(s, key, chars), k), log, k)
    {
      assert Agrees(ViewOf(s, k), log, k);
    }
  }

  lemma StepLinked(g: System, e: Event, g': System, log: Log)
    requires SysInv(g) && Step(g, e, g') && Known(g.s) && LinkedAll(g.s, log)
    ensures Known(g'.s) && LinkedAll(g'.s, log + Seen(g, e))
  {
    hide SysInv, Inv, LinkedAll, Known, Notify, WaitLoop, LeaveWait, Hold, Release, Measured, TakeNext, Finish;
    hide WaitersOk, HoldersOk, JobsOk, ChannelBounds, ViewOf, ToldView, OnlyView, SameViews;
    SysParts(g);
    SysThreads(g);
    assert log + [] == log;
    match e {
      case Notifies(key, chars, now) =>
        NotifyView(g.s, key, chars, now);
        if Accepts(g.s, key) {
          HeardLinked(g.s, g'.s, key, chars, now, log);
        }
      case Waits(w, key, limit, now) =>
        if key in g.s.users {
          WaitsLinked(g, e, log);
        }
      case WaiterWakes(w, gone) => WaiterWakesLinked(g, e, log);
      case Holds(h, key) =>
        HoldView(g.s, key);
        SameLinked(g.s, g'.s, log);
      case Releases(h) =>
        HeldCount(g, h);
        ReleaseView(g.s, g.holders[h]);
        SameLinked(g.s, g'.s, log);
      case Measures(key, chars) => MeasuresLinked(g.s, key, chars, log);
      case Looks(w) => LooksLinked(g, w, log);
      case Finishes(_, _, _, _, _) => FinishesLinked(g, e, log);
      case _ =>
        SameTables(g.s, g'.s);
        SameLinked(g.s, g'.s, log);
    }
  }

  lemma StartLinked(g: System)
    requires Start0(g)
    ensures Known(g.s) && LinkedAll(g.s, [])
  {
    forall k
      ensures Agrees(ViewOf(g.s, k), [], k)
    {
      BooksRight([], k);
    }
  }

  lemma {:induction false} RunLinked(states: seq<System>, events: seq<Event>, i: nat)
    requires IsRun(states, events) && Start0(states[0]) && i <= |events|
    ensures Known(states[i].s) && LinkedAll(states[i].s, LogOf(states, events, i))
  {
    hide LinkedAll, Step, SysInv, Known, Start0, Seen;
    if i == 0 {
      StartLinked(states[0]);
    } else {
      RunLinked(states, events, i - 1);
      RunInv(states, events, i - 1);
      assert Step(states[i - 1], events[i - 1], states[i - 1 + 1]);
      StepLinked(states[i - 1], events[i - 1], states[i], LogOf(states, events, i - 1));
    }
  }

  /**
   `since` is, in every state of every run, the time of the first thing heard
   of the user, in the order of the lock, that no successful job begun after it
   has covered; the user is idle, or unknown, exactly when there is none.
   */
  lemma SinceFirstUncovered(states: seq<System>, events: seq<Event>, i: nat, k: Key)
    requires IsRun(states, events) && Start0(states[0]) && i <= |events|
    ensures Known(states[i].s)
    ensures var v, log := ViewOf(states[i].s, k), LogOf(states, events, i);
            && (v.phase.Idle? <==> forall n :: HeardOf(log, n, k) ==> Covered(log, n, k))
            && (!v.phase.Idle? ==>
                exists n :: && HeardOf(log, n, k) && !Covered(log, n, k) && v.since == Some(log[n].at)
                            && forall m :: HeardOf(log, m, k) && m < n ==> Covered(log, m, k))
  {
    RunLinked(states, events, i);
    var v, log := ViewOf(states[i].s, k), LogOf(states, events, i);
    hide IsRun, LogOf, Start0, Covered;
    assert Agrees(v, log, k);
    var b := Keep(log, k);
    if b.open != [] {
      var n := b.open[0];
      assert HeardOf(log, n, k);
      assert n in b.open;
      forall m | HeardOf(log, m, k) && m < n
        ensures Covered(log, m, k)
      {
        assert forall j :: 0 <= j < |b.open| ==> b.open[j] >= n;
        assert m !in b.open;
      }
    }
  }

  /**
   After an accepted notification, a wait that queued its user, or a job that
   ended without success, the user is queued, backing off, or running and to
   run again, until its next job begins.
   */
  lemma NoWorkLost(states: seq<System>, events: seq<Event>, i: nat, k: Key)
    requires IsRun(states, events) && Start0(states[0]) && i <= |events|
    requires Owed(LogOf(states, events, i), k)
    ensures Known(states[i].s) && k in states[i].s.users
    ensures var u := states[i].s.entries[states[i].s.users[k]];
            u.phase.Queued? || u.phase.BackingOff? || (u.phase.Running? && u.dirty)
  {
    RunLinked(states, events, i);
    assert Agrees(ViewOf(states[i].s, k), LogOf(states, events, i), k);
  }

  /** A user's failures are its jobs that failed or were paused since its last successful one, forgotten or not. */
  lemma FailuresInARow(states: seq<System>, events: seq<Event>, i: nat, k: Key)
    requires IsRun(states, events) && Start0(states[0]) && i <= |events|
    ensures Known(states[i].s)
    ensures (if k in states[i].s.users then states[i].s.entries[states[i].s.users[k]].failures else 0)
            == |FailedSince(LogOf(states, events, i), k)|
  {
    hide LogOf, Right, Linked, FailedSince, InARow;
    RunLinked(states, events, i);
    assert Agrees(ViewOf(states[i].s, k), LogOf(states, events, i), k);
    InARowIs(LogOf(states, events, i), k);
  }
}
