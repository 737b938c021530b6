/**
 A provider kind that a status leaves out is forgotten: its counter and its
 last rise. Four statuses that show what the rules do then: first with a kind
 that goes missing within one process, a status the repository's own server
 does not send (its statuses have every kind of its models, which are fixed
 for the life of the process); then with two restarts, which it can.
 */
module WatchGaps {
  import opened Common
  import opened WatchRules
  import opened WatchAlerts
  import opened WatchRuns
  import opened WatchSteady

  const KEY: string := REJECTED_KEY + "x"
  const ALERT: string := REJECTED + "x"

  /** A status of a process about nothing but the requests a kind rejected, if it has the kind. */
  function Rejecting(process: Time, n: Option<int>): Status {
    Status(process, 0, 0, 0, 0, map[], map[], if n.Some? then map["x" := n.value] else map[], 0, 0, [], 0, 0, 0)
  }

  lemma Counts(process: Time, n: Option<int>)
    ensures CountOf(Rejecting(process, n), KEY) == n && KeyOf(ALERT) == Some(KEY) && ALERT != "restart"
    ensures Named(Rejecting(process, n), ALERT) <==> n.Some?
    ensures !BreakerOpen(Rejecting(process, n), ALERT)
  {
    Rest(REJECTED_KEY, "x");
    Rest(REJECTED, "x");
    assert KEY[0] == 'r' && KEY[1] == 'e' && ALERT[0] == 'p';
  }

  /** Run by run, a minute apart, with no webhook. */
  method RunAll(statuses: seq<Status>) returns (states: seq<State>, runs: seq<Run>)
    ensures |runs| == |statuses| && IsHistory(states, runs) && ClockOk(runs)
    ensures Begun(states[0]) && states[0].rises == map[]
    ensures forall i :: 0 <= i < |runs| ==>
              runs[i].obs.status == Some(statuses[i]) && runs[i].saved && runs[i].now == i * MINUTE
  {
    hide Ran;
    states, runs := [State(None, map[], map[], map[], map[])], [];
    while |runs| < |statuses|
      invariant |runs| <= |statuses| && IsHistory(states, runs)
      invariant Begun(states[0]) && states[0].rises == map[]
      invariant forall i :: 0 <= i < |runs| ==>
                runs[i].obs.status == Some(statuses[i]) && runs[i].saved && runs[i].now == i * MINUTE
    {
      var n := |runs|;
      var r, next := RunOnce(states[n], Observation(false, false, Some(statuses[n])), n * MINUTE, false,
                             _ => Refused, true);
      ghost var states0, runs0 := states, runs;
      states, runs := states + [next], runs + [r];
      forall i | 0 <= i < |runs|
        ensures Ran(states[i], runs[i], states[i + 1])
      {
        if i < n {
          assert Ran(states0[i], runs0[i], states0[i + 1]);
        }
      }
    }
  }

  /** The state after a status has its count, or none. */
  lemma CountKept(states: seq<State>, runs: seq<Run>, i: nat, process: Time, n: Option<int>)
    requires IsHistory(states, runs) && i < |runs| && runs[i].saved && runs[i].obs.status == Some(Rejecting(process, n))
    ensures states[i + 1].startedAt == Some(process) && Get(states[i + 1].counters, KEY) == n
  {
    hide Told, CountOf, RiseAfter, LagSince;
    Counts(process, n);
    assert Ran(states[i], runs[i], states[i + 1]);
  }

  /** 2 rejected, then 5, then a status without the kind: the rise of the second is the last seen. */
  lemma SecondRises(states: seq<State>, runs: seq<Run>, process: Time)
    requires IsHistory(states, runs) && |runs| == 4 && runs[0].saved && runs[1].saved && runs[2].saved
    requires runs[0].obs.status == Some(Rejecting(0, Some(2))) && runs[1].obs.status == Some(Rejecting(0, Some(5)))
    requires runs[2].obs.status == Some(Rejecting(process, None))
    ensures LastRise(states, runs, 1, 3, ALERT) && forall i :: 0 <= i < 3 ==> !HeldFrom(states, runs, i, 3, ALERT)
  {
    hide CountOf, KeyOf, BreakerOpen, Named;
    CountKept(states, runs, 0, 0, Some(2));
    Counts(0, Some(5));
    Counts(process, None);
    assert SawRise(states, runs, 1, ALERT);
    OneLastRise(states, runs, 1, 3, ALERT);
  }

  lemma FourSights(runs: seq<Run>)
    requires |runs| == 4 && forall i :: 0 <= i < 4 ==> Counted(runs[i])
    ensures Sights(runs, KEY) == [SightOf(runs[0]), SightOf(runs[1]), SightOf(runs[2]), SightOf(runs[3])]
  {
    hide CountOf;
    assert runs[..3][..2] == runs[..2] && runs[..2][..1] == runs[..1] && runs[..1][..0] == [];
    assert Sights(runs[..1], KEY) == [SightOf(runs[0])];
    assert Sights(runs[..2], KEY) == [SightOf(runs[0]), SightOf(runs[1])];
    assert Sights(runs[..3], KEY) == [SightOf(runs[0]), SightOf(runs[1]), SightOf(runs[2])];
  }

  function SightOf(r: Run): Sight
    requires Counted(r)
  {
    Sight(r.obs.status.value.startedAt, CountOf(r.obs.status.value, KEY))
  }

  lemma SightsAdd()
    ensures var h := [Sight(0, Some(2)), Sight(0, Some(5)), Sight(0, None), Sight(0, Some(7))];
            Grows(h) && Came(h) == 5 && Lost(h) == 2
  {
    var h := [Sight(0, Some(2)), Sight(0, Some(5)), Sight(0, None), Sight(0, Some(7))];
    var h3, h2, h1 := h[..3], h[..2], h[..1];
    assert h3[..2] == h2 && h3[..1] == h1 && h2[..1] == h1 && h1[..0] == [];
    assert LastSeen(h1) == 2 && LastSeen(h2) == 5 && LastSeen(h3) == 5;
    assert Lost(h1) == 0 && Lost(h2) == 0 && Lost(h3) == 0;
    assert Ended(h2) == 0 && Ended(h3) == 0;
    assert Reappears(h, 3);
  }

  /**
   A kind missing from one status of its process: five requests are rejected
   after the first status and three reported as new; and two minutes after it
   was seen to rise, the alert, named by the status, does not fire.
   */
  method GapForgets() returns (states: seq<State>, runs: seq<Run>)
    ensures IsHistory(states, runs) && Begun(states[0]) && states[0].rises == map[] && ClockOk(runs) && |runs| == 4
    ensures Grows(Sights(runs, KEY)) && Came(Sights(runs, KEY)) == 5 && Reported(states, runs, KEY) == 3
    ensures runs[3].obs.status.Some? && Named(runs[3].obs.status.value, ALERT)
    ensures LastRise(states, runs, 1, 3, ALERT) && runs[3].now - runs[1].now < WATCH_HOLD
    ensures !Fires(runs[3].obs, states[3], runs[3].now, ALERT)
  {
    hide IsHistory, Sights, Reported, Came, Lost, Grows, CountOf, KeyOf, BreakerOpen, Named, Fires, LastRise, HeldFrom;
    states, runs := RunAll([Rejecting(0, Some(2)), Rejecting(0, Some(5)), Rejecting(0, None), Rejecting(0, Some(7))]);
    Counts(0, Some(2));
    Counts(0, Some(5));
    Counts(0, None);
    Counts(0, Some(7));
    FourSights(runs);
    SightsAdd();
    Conservation(states, runs, KEY);
    SecondRises(states, runs, 0);
    CountKept(states, runs, 2, 0, None);
    FiresWhileHeld(states, runs, 3, ALERT);
  }

  /**
   Two restarts within ten minutes, the process in between without the kind:
   every process names the same kinds throughout, and the alert, named by the
   status two minutes after it was seen to rise, does not fire.
   */
  method RestartsForget() returns (states: seq<State>, runs: seq<Run>)
    ensures IsHistory(states, runs) && Begun(states[0]) && states[0].rises == map[] && ClockOk(runs) && |runs| == 4
    ensures KindsFixed(runs) && runs[3].obs.status.Some? && Named(runs[3].obs.status.value, ALERT)
    ensures LastRise(states, runs, 1, 3, ALERT) && runs[3].now - runs[1].now < WATCH_HOLD
    ensures !Fires(runs[3].obs, states[3], runs[3].now, ALERT)
  {
    hide IsHistory, CountOf, KeyOf, BreakerOpen, Named, Fires, LastRise, HeldFrom;
    states, runs := RunAll([Rejecting(0, Some(2)), Rejecting(0, Some(5)), Rejecting(1, None), Rejecting(2, Some(0))]);
    Counts(2, Some(0));
    SecondRises(states, runs, 1);
    CountKept(states, runs, 2, 1, None);
    FiresWhileHeld(states, runs, 3, ALERT);
  }
}
