/**
 What the server really sends: the kinds of its models are fixed for the life
 of a process (internal/memoryagent/resilience.go), so that a status names the
 same kinds as every other status of its process. Then nothing is lost, of any
 counter, and only a process in between that has other kinds can end an event
 alert early.
 */
module WatchSteady {
  import opened Common
  import opened WatchRules
  import opened WatchAlerts
  import opened WatchRuns

  predicate Readable(r: Run) {
    r.obs.status.Some?
  }

  predicate OfOneProcess(r: Run, q: Run)
    requires Readable(r) && Readable(q)
  {
    r.obs.status.value.startedAt == q.obs.status.value.startedAt
  }

  /** The statuses of one process name the same kinds. */
  ghost predicate KindsFixed(runs: seq<Run>) {
    forall r, q :: r in runs && q in runs && Readable(r) && Readable(q) && OfOneProcess(r, q) ==>
      && Kinds(r.obs.status.value) == Kinds(q.obs.status.value)
      && r.obs.status.value.rejected.Keys == q.obs.status.value.rejected.Keys
  }

  /** The statuses of one process all name the counter, or none does. */
  ghost predicate Steady(runs: seq<Run>, key: string) {
    forall r, q :: r in runs && q in runs && Readable(r) && Readable(q) && OfOneProcess(r, q) ==>
      (CountOf(r.obs.status.value, key).Some? <==> CountOf(q.obs.status.value, key).Some?)
  }

  lemma KindsAreSteady(runs: seq<Run>, key: string)
    requires KindsFixed(runs)
    ensures Steady(runs, key)
  {
    forall r, q | r in runs && q in runs && Readable(r) && Readable(q) && OfOneProcess(r, q)
      ensures CountOf(r.obs.status.value, key).Some? <==> CountOf(q.obs.status.value, key).Some?
    {
      KeyNamed(r.obs.status.value, key);
      KeyNamed(q.obs.status.value, key);
    }
  }

  // ---- nothing is lost ----

  /** Every sight is of a counted run. */
  lemma {:induction false} SightFrom(runs: seq<Run>, key: string, i: nat) returns (r: Run)
    requires i < |Sights(runs, key)|
    ensures r in runs && Counted(r)
    ensures Sights(runs, key)[i] == Sight(r.obs.status.value.startedAt, CountOf(r.obs.status.value, key))
  {
    hide CountOf;
    var n := |runs| - 1;
    if i < |Sights(runs[..n], key)| {
      r := SightFrom(runs[..n], key, i);
    } else {
      r := runs[n];
    }
  }

  lemma {:induction false} NoneReappears(h: seq<Sight>)
    requires forall i :: 0 <= i < |h| && SameProcess(h, i) ==> (h[i].count.Some? <==> h[i - 1].count.Some?)
    ensures Lost(h) == 0
  {
    if h != [] {
      var n := |h| - 1;
      assert forall i :: 0 <= i < n ==> SameProcess(h[..n], i) == SameProcess(h, i);
      NoneReappears(h[..n]);
      assert !Reappears(h, n);
    }
  }

  /**
   Over any runs against such servers, whatever is read, saved or restarted,
   the amounts reported as new of any counter, those of the kinds included,
   sum to the last seen count of every process less the first status's.
   */
  lemma EveryCounterConserved(states: seq<State>, runs: seq<Run>, key: string)
    requires IsHistory(states, runs) && Begun(states[0]) && KindsFixed(runs)
    ensures Reported(states, runs, key) == Came(Sights(runs, key))
  {
    hide KindsFixed, IsHistory, CountOf;
    KindsAreSteady(runs, key);
    var h := Sights(runs, key);
    forall i | 0 <= i < |h| && SameProcess(h, i)
      ensures h[i].count.Some? <==> h[i - 1].count.Some?
    {
      var r := SightFrom(runs, key, i);
      var q := SightFrom(runs, key, i - 1);
      assert OfOneProcess(r, q);
    }
    NoneReappears(h);
    Conservation(states, runs, key);
  }

  // ---- event alerts ----

  lemma SteadyNames(runs: seq<Run>, r: Run, q: Run, a: string)
    requires KindsFixed(runs) && r in runs && q in runs && Readable(r) && Readable(q) && OfOneProcess(r, q)
    ensures Named(r.obs.status.value, a) <==> Named(q.obs.status.value, a)
  {
    hide KindsFixed, CountOf, KeyOf;
    if KeyOf(a).Some? {
      KindsAreSteady(runs, KeyOf(a).value);
    }
  }

  /** A process between runs i and n, neither that of i nor that of n, has no such kind. */
  ghost predicate LeftOutBetween(runs: seq<Run>, i: nat, n: nat, a: string)
    requires i < n < |runs| && Readable(runs[i]) && Readable(runs[n])
  {
    exists k :: i < k < n && Counted(runs[k]) && !Named(runs[k].obs.status.value, a)
                && !OfOneProcess(runs[k], runs[i]) && !OfOneProcess(runs[k], runs[n])
  }

  lemma OnlyBetween(runs: seq<Run>, i: nat, n: nat, a: string)
    requires KindsFixed(runs) && i < n < |runs| && Counted(runs[i]) && Readable(runs[n])
    requires Named(runs[i].obs.status.value, a) && Named(runs[n].obs.status.value, a)
    ensures NamedSince(runs, i, n, a) <==> !LeftOutBetween(runs, i, n, a)
  {
    hide KindsFixed, Named;
    forall k | i <= k < n && Counted(runs[k]) && !Named(runs[k].obs.status.value, a)
      ensures i < k && !OfOneProcess(runs[k], runs[i]) && !OfOneProcess(runs[k], runs[n])
    {
      if OfOneProcess(runs[k], runs[i]) {
        SteadyNames(runs, runs[k], runs[i], a);
      }
      if OfOneProcess(runs[k], runs[n]) {
        SteadyNames(runs, runs[k], runs[n], a);
      }
    }
  }

  /**
   An event alert the status names, that of a kind included, fires exactly
   while less than watchHold has passed since its last rise, but for a third
   process in between whose models have no such kind.
   */
  lemma EveryEventFires(states: seq<State>, runs: seq<Run>, n: nat, a: string)
    requires IsHistory(states, runs) && ClockOk(runs) && states[0].rises == map[] && KindsFixed(runs) && n < |runs|
    requires Readable(runs[n]) && Named(runs[n].obs.status.value, a)
    ensures Fires(runs[n].obs, states[n], runs[n].now, a) <==>
              || Rose(states[n], runs[n].obs.status.value, a)
              || exists i :: 0 <= i < n && LastRise(states, runs, i, n, a) && runs[n].now - runs[i].now < WATCH_HOLD
                             && !LeftOutBetween(runs, i, n, a)
  {
    hide Ran, Fires, Rose, KindsFixed, Named, LeftOutBetween, NamedSince;
    FiresWhileHeld(states, runs, n, a);
    forall i | 0 <= i < n && LastRise(states, runs, i, n, a)
      ensures HeldFrom(states, runs, i, n, a) <==> !LeftOutBetween(runs, i, n, a)
    {
      OnlyBetween(runs, i, n, a);
    }
  }

  /** With at most one restart since the rise there is no process in between. */
  lemma OneRestartFires(states: seq<State>, runs: seq<Run>, i: nat, n: nat, a: string)
    requires IsHistory(states, runs) && ClockOk(runs) && states[0].rises == map[] && KindsFixed(runs) && i < n < |runs|
    requires Readable(runs[n]) && Named(runs[n].obs.status.value, a) && LastRise(states, runs, i, n, a)
    requires forall k :: i < k < n && Counted(runs[k]) ==>
              OfOneProcess(runs[k], runs[i]) || OfOneProcess(runs[k], runs[n])
    ensures Fires(runs[n].obs, states[n], runs[n].now, a) <==>
              Rose(states[n], runs[n].obs.status.value, a) || runs[n].now - runs[i].now < WATCH_HOLD
  {
    hide Ran, Fires, Rose, KindsFixed, Named;
    EveryEventFires(states, runs, n, a);
    OneLastRise(states, runs, i, n, a);
  }
}
