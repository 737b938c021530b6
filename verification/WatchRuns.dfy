/**
 What holds of the watcher over any sequence of runs, whatever they read,
 whatever of their messages is delivered, and whether or not their state is
 saved.
 */
module WatchRuns {
  import opened Common
  import opened Orders
  import opened WatchRules
  import opened WatchAlerts

  ghost predicate IsHistory(states: seq<State>, runs: seq<Run>) {
    && |states| == |runs| + 1
    && forall i :: 0 <= i < |runs| ==> Ran(states[i], runs[i], states[i + 1])
  }

  // ---- at-least-once alerting ----

  lemma SentIsSaid(prev: State, r: Run, a: string, kind: Kind)
    requires Told(prev, r) && Sent(r.messages, r.outcomes, a, kind)
    ensures SaysIn(prev, r, a) == Some(kind)
  {
    hide SaysIn;
  }

  /** An alert leaves the state only in a saved run whose RESOLVED was delivered. */
  lemma LeavesOnlyResolved(prev: State, r: Run, next: State, a: string)
    requires Ran(prev, r, next) && a in prev.firing && a !in next.firing
    ensures r.saved && Sent(r.messages, r.outcomes, a, Resolved)
  {
    hide Told, NextCounts, Fires;
    assert r.saved ==> Get(next.firing, a) == AlertAfter(prev, r, a);
  }

  /** Over any runs: an alert that was in the state and is not any more had its RESOLVED delivered in between. */
  lemma {:induction false} OwedUntilResolved(states: seq<State>, runs: seq<Run>, i: nat, j: nat, a: string)
    requires IsHistory(states, runs) && i < j < |states| && a in states[i].firing && a !in states[j].firing
    ensures exists k :: i <= k < j && runs[k].saved && Sent(runs[k].messages, runs[k].outcomes, a, Resolved)
    decreases j - i
  {
    hide Ran, Sent;
    assert Ran(states[i], runs[i], states[i + 1]);
    if a in states[i + 1].firing {
      OwedUntilResolved(states, runs, i + 1, j, a);
    } else {
      LeavesOnlyResolved(states[i], runs[i], states[i + 1], a);
    }
  }

  /**
   Exactly what a run has to say of an alert its status speaks for: that it is
   new until that was delivered, again half an hour after it was last
   delivered, and resolved once it does not fire; what the status cannot speak
   for is left as it was.
   */
  lemma PlannedAgain(prev: State, r: Run, next: State, a: string)
    requires Ran(prev, r, next)
    ensures Frozen(r.obs, prev, a) ==>
              && a in next.firing && next.firing[a] == prev.firing[a]
              && forall kind :: Message(a, kind) !in r.messages
    ensures !Frozen(r.obs, prev, a) ==>
              var fires, silent := Fires(r.obs, prev, r.now, a), a !in prev.firing || prev.firing[a].lastSent.None?;
              && (Message(a, New) in r.messages <==> fires && silent)
              && (Message(a, Again) in r.messages <==>
                  fires && !silent && r.now - prev.firing[a].lastSent.value >= 30 * MINUTE)
              && (Message(a, Resolved) in r.messages <==> !fires && a in prev.firing)
  {
    hide NextCounts, Fires;
    if SaysIn(prev, r, a).Some? {
      var i :| 0 <= i < |r.messages| && r.messages[i].alert == a;
      assert r.messages[i] == Message(a, SaysIn(prev, r, a).value);
    }
    assert r.saved ==> Get(next.firing, a) == AlertAfter(prev, r, a);
  }

  /** What a saved run leaves of an alert: since when it fires, and when it was last delivered. */
  lemma AlertLeft(prev: State, r: Run, next: State, a: string)
    requires Ran(prev, r, next) && r.saved && !Frozen(r.obs, prev, a)
    ensures var fires, sent := Fires(r.obs, prev, r.now, a), SentAlert(r.messages, r.outcomes, a);
            Get(next.firing, a) ==
              if a in prev.firing then
                if fires then Some(if sent then Alert(prev.firing[a].since, Some(r.now)) else prev.firing[a])
                else if Sent(r.messages, r.outcomes, a, Resolved) then None else Some(prev.firing[a])
              else if fires then Some(Alert(r.now, if sent then Some(r.now) else None))
              else None
  {
    hide NextCounts, Fires, Sent;
    assert Get(next.firing, a) == AlertAfter(prev, r, a);
    SentSaid(prev, r, a);
  }

  /** What is delivered of an alert is what the run has to say of it. */
  lemma SentSaid(prev: State, r: Run, a: string)
    requires Told(prev, r)
    ensures forall kind :: Sent(r.messages, r.outcomes, a, kind) ==> SaysIn(prev, r, a) == Some(kind)
  {
    hide SaysIn, Sent;
    forall kind | Sent(r.messages, r.outcomes, a, kind)
      ensures SaysIn(prev, r, a) == Some(kind)
    {
      SentIsSaid(prev, r, a, kind);
    }
  }

  /** A delivered ALERT is remembered with its time, and nothing else changes that time. */
  lemma RemembersSent(prev: State, r: Run, next: State, a: string)
    requires Ran(prev, r, next) && r.saved && a in next.firing
    ensures SentAlert(r.messages, r.outcomes, a) ==> next.firing[a].lastSent == Some(r.now)
    ensures !SentAlert(r.messages, r.outcomes, a) && a in prev.firing ==> next.firing[a] == prev.firing[a]
  {
    hide NextCounts, Fires;
    assert Get(next.firing, a) == AlertAfter(prev, r, a);
    if SentAlert(r.messages, r.outcomes, a) {
      var kind := if Sent(r.messages, r.outcomes, a, New) then New else Again;
      SentIsSaid(prev, r, a, kind);
    }
  }

  /** A delivered ALERT about an alert whose message went out before comes no sooner than watchRepeat after it. */
  lemma SpacedStep(prev: State, r: Run, next: State, a: string)
    requires Ran(prev, r, next) && a in prev.firing && prev.firing[a].lastSent.Some?
    requires SentAlert(r.messages, r.outcomes, a)
    ensures r.now - prev.firing[a].lastSent.value >= WATCH_REPEAT
  {
    hide NextCounts, Fires;
    var kind := if Sent(r.messages, r.outcomes, a, New) then New else Again;
    SentIsSaid(prev, r, a, kind);
  }

  lemma {:induction false} LastSentBounds(states: seq<State>, runs: seq<Run>, i: nat, j: nat, a: string)
    requires IsHistory(states, runs) && i < j < |states| && forall k :: i <= k < j ==> runs[k].saved
    requires SentAlert(runs[i].messages, runs[i].outcomes, a) && forall k :: i < k <= j ==> a in states[k].firing
    ensures states[j].firing[a].lastSent.Some? && states[j].firing[a].lastSent.value >= runs[i].now
    decreases j - i
  {
    hide Ran, SentAlert;
    assert Ran(states[j - 1], runs[j - 1], states[j - 1 + 1]);
    RemembersSent(states[j - 1], runs[j - 1], states[j], a);
    if j > i + 1 {
      LastSentBounds(states, runs, i, j - 1, a);
      if SentAlert(runs[j - 1].messages, runs[j - 1].outcomes, a) {
        SpacedStep(states[j - 1], runs[j - 1], states[j], a);
      }
    }
  }

  /**
   While saves succeed, delivered ALERTs about an alert are at least
   watchRepeat apart within one stay in the state.
   */
  lemma Spaced(states: seq<State>, runs: seq<Run>, i: nat, j: nat, a: string)
    requires IsHistory(states, runs) && i < j < |runs| && forall k :: i <= k < j ==> runs[k].saved
    requires forall k :: i < k <= j ==> a in states[k].firing
    requires SentAlert(runs[i].messages, runs[i].outcomes, a) && SentAlert(runs[j].messages, runs[j].outcomes, a)
    ensures runs[j].now - runs[i].now >= WATCH_REPEAT
  {
    hide Ran, SentAlert;
    LastSentBounds(states, runs, i, j, a);
    assert Ran(states[j], runs[j], states[j + 1]);
    SpacedStep(states[j], runs[j], states[j + 1], a);
  }

  // ---- said again in time ----

  ghost predicate ClockOk(runs: seq<Run>) {
    forall i, j :: 0 <= i < j < |runs| ==> runs[i].now <= runs[j].now
  }

  /** The run's status speaks for a, which fires, and whatever the run has to say of it is delivered. */
  ghost predicate FiresDelivered(prev: State, r: Run, a: string) {
    && Fires(r.obs, prev, r.now, a) && !Frozen(r.obs, prev, a)
    && |r.outcomes| == |r.messages|
    && forall i :: 0 <= i < |r.messages| && r.messages[i].alert == a ==> r.outcomes[i]
  }

  /** No alert was last delivered after the last run. */
  lemma {:induction false} SentInPast(states: seq<State>, runs: seq<Run>, n: nat, a: string)
    requires IsHistory(states, runs) && ClockOk(runs) && states[0].firing == map[] && n < |runs|
    requires a in states[n + 1].firing && states[n + 1].firing[a].lastSent.Some?
    ensures states[n + 1].firing[a].lastSent.value <= runs[n].now
  {
    hide Ran, SentAlert;
    assert Ran(states[n], runs[n], states[n + 1]);
    LastSentStep(states[n], runs[n], states[n + 1], a);
    if n > 0 && states[n + 1].firing[a].lastSent != Some(runs[n].now) {
      SentInPast(states, runs, n - 1, a);
    }
  }

  lemma LastSentStep(prev: State, r: Run, next: State, a: string)
    requires Ran(prev, r, next) && a in next.firing && next.firing[a].lastSent.Some?
    ensures next.firing[a].lastSent == Some(r.now) || (a in prev.firing && prev.firing[a] == next.firing[a])
  {
    hide NextCounts, Fires, Sent;
    assert r.saved ==> Get(next.firing, a) == AlertAfter(prev, r, a);
  }

  lemma SaidIsSent(prev: State, r: Run, a: string)
    requires Told(prev, r) && FiresDelivered(prev, r, a)
    ensures SaysIn(prev, r, a).Some? ==> Sent(r.messages, r.outcomes, a, SaysIn(prev, r, a).value)
  {
    hide SaysIn, Fires;
    if SaysIn(prev, r, a).Some? {
      var i :| 0 <= i < |r.messages| && r.messages[i].alert == a;
      assert r.outcomes[i] && r.messages[i] == Message(a, SaysIn(prev, r, a).value);
    }
  }

  /** A run that delivers what it says of a firing alert, and says nothing, leaves it: it was said lately. */
  lemma SaidLately(prev: State, r: Run, next: State, a: string)
    requires Ran(prev, r, next) && FiresDelivered(prev, r, a) && !SentAlert(r.messages, r.outcomes, a)
    ensures a in prev.firing && prev.firing[a].lastSent.Some? && r.now - prev.firing[a].lastSent.value < 30 * MINUTE
    ensures a in next.firing && next.firing[a] == prev.firing[a]
  {
    hide NextCounts, Fires, Told, Sent;
    SaidIsSent(prev, r, a);
    SentSaid(prev, r, a);
    assert r.saved ==> Get(next.firing, a) == AlertAfter(prev, r, a);
  }

  lemma {:induction false} StillLately(states: seq<State>, runs: seq<Run>, i: nat, j: nat, a: string)
    requires IsHistory(states, runs) && i < j < |runs|
    requires forall k :: i < k <= j ==> FiresDelivered(states[k], runs[k], a)
    requires forall k :: i < k <= j ==> !SentAlert(runs[k].messages, runs[k].outcomes, a)
    ensures a in states[i + 1].firing && states[i + 1].firing[a].lastSent.Some?
    ensures runs[j].now - states[i + 1].firing[a].lastSent.value < 30 * MINUTE
    ensures a in states[j + 1].firing && states[j + 1].firing[a] == states[i + 1].firing[a]
    decreases j
  {
    hide Ran, FiresDelivered, SentAlert;
    assert Ran(states[j], runs[j], states[j + 1]);
    SaidLately(states[j], runs[j], states[j + 1], a);
    if j > i + 1 {
      StillLately(states, runs, i, j - 1, a);
    }
  }

  /**
   While an alert fires and what is said of it is delivered, no two runs half
   an hour or more apart pass without a delivered ALERT after the first, up to
   the second, saved or not.
   */
  lemma NeverSilent(states: seq<State>, runs: seq<Run>, i: nat, j: nat, a: string)
    requires IsHistory(states, runs) && ClockOk(runs) && states[0].firing == map[] && i < j < |runs|
    requires forall k :: i < k <= j ==> FiresDelivered(states[k], runs[k], a)
    requires runs[j].now - runs[i].now >= 30 * MINUTE
    ensures exists k :: i < k <= j && SentAlert(runs[k].messages, runs[k].outcomes, a)
  {
    hide Ran, FiresDelivered, SentAlert;
    if forall k :: i < k <= j ==> !SentAlert(runs[k].messages, runs[k].outcomes, a) {
      StillLately(states, runs, i, j, a);
      SentInPast(states, runs, i, a);
    }
  }

  // ---- the counters: what is reported as new ----

  /** A run that left its mark on the counters: it read the status and saved. */
  predicate Counted(r: Run) {
    r.obs.status.Some? && r.saved
  }

  /** What a status said of a counter, and which process said it. */
  datatype Sight = Sight(process: Time, count: Option<int>)

  function Sights(runs: seq<Run>, key: string): seq<Sight> {
    if runs == [] then []
    else
      var r := runs[|runs| - 1];
      Sights(runs[..|runs| - 1], key)
        + if Counted(r) then [Sight(r.obs.status.value.startedAt, CountOf(r.obs.status.value, key))] else []
  }

  /** The sum of the amounts the counted runs found new. */
  ghost function Reported(states: seq<State>, runs: seq<Run>, key: string): int
    requires |states| == |runs| + 1
  {
    if runs == [] then 0
    else
      var n := |runs| - 1;
      Reported(states[..n + 1], runs[..n], key)
        + if Counted(runs[n]) then NewOf(states[n], runs[n].obs.status.value, key) else 0
  }

  predicate SameProcess(h: seq<Sight>, i: nat)
    requires i < |h|
  {
    i > 0 && h[i].process == h[i - 1].process
  }

  /** The count last seen in the current process, 0 if none was. */
  function LastSeen(h: seq<Sight>): int {
    if h == [] then 0
    else
      var n := |h| - 1;
      if h[n].count.Some? then h[n].count.value
      else if SameProcess(h, n) then LastSeen(h[..n])
      else 0
  }

  /** The counts last seen in the processes that have ended. */
  function Ended(h: seq<Sight>): int {
    if |h| <= 1 then 0
    else
      var n := |h| - 1;
      Ended(h[..n]) + if SameProcess(h, n) then 0 else LastSeen(h[..n])
  }

  /** What really came: the last seen count of every process, less the first status's. */
  function Came(h: seq<Sight>): int {
    if h == [] then 0 else Ended(h) + LastSeen(h) - LastSeen(h[..1])
  }

  /** A status that names a counter the status before it, of the same process, did not: what it adds is not reported. */
  predicate Reappears(h: seq<Sight>, i: nat)
    requires i < |h|
  {
    SameProcess(h, i) && h[i - 1].count.None? && h[i].count.Some?
  }

  function LostAt(h: seq<Sight>, i: nat): int
    requires i < |h|
  {
    if Reappears(h, i) then h[i].count.value - LastSeen(h[..i]) else 0
  }

  function Lost(h: seq<Sight>): int {
    if h == [] then 0 else Lost(h[..|h| - 1]) + LostAt(h, |h| - 1)
  }

  ghost predicate Begun(s: State) {
    s.startedAt.None? && s.counters == map[]
  }

  /** The state's counters are those of the last counted run. */
  lemma {:induction false} CountersKept(states: seq<State>, runs: seq<Run>, key: string)
    requires IsHistory(states, runs) && Begun(states[0])
    ensures var h, s := Sights(runs, key), states[|runs|];
            if h == [] then Begun(s)
            else s.startedAt == Some(h[|h| - 1].process) && Get(s.counters, key) == h[|h| - 1].count
  {
    hide Told, RiseAfter, LagSince, CountOf;
    if runs != [] {
      var n := |runs| - 1;
      Shorter(states, runs);
      CountersKept(states[..n + 1], runs[..n], key);
      assert Ran(states[n], runs[n], states[n + 1]);
    }
  }

  lemma Shorter(states: seq<State>, runs: seq<Run>)
    requires IsHistory(states, runs) && runs != []
    ensures IsHistory(states[..|runs|], runs[..|runs| - 1])
  {
    hide Ran;
    var n := |runs| - 1;
    forall i | 0 <= i < n
      ensures Ran(states[..n + 1][i], runs[..n][i], states[..n + 1][i + 1])
    {
      assert Ran(states[i], runs[i], states[i + 1]);
    }
  }

  /** Over any runs: what came is what was reported and what was lost to statuses that did not name the counter. */
  lemma {:induction false} Conservation(states: seq<State>, runs: seq<Run>, key: string)
    requires IsHistory(states, runs) && Begun(states[0])
    ensures Reported(states, runs, key) + Lost(Sights(runs, key)) == Came(Sights(runs, key))
  {
    hide Ran, CountOf, NewOf, Lost, Came, IsHistory;
    if runs == [] {
      NothingCame();
    } else {
      var n := |runs| - 1;
      Shorter(states, runs);
      HistoryLength(states, runs);
      var states', runs' := states[..n + 1], runs[..n];
      Conservation(states', runs', key);
      if Counted(runs[n]) {
        CountersKept(states', runs', key);
        CountedNew(Sights(runs', key), states[n], runs[n].obs.status.value, key);
      } else {
        assert Sights(runs', key) + [] == Sights(runs', key);
      }
    }
  }

  lemma HistoryLength(states: seq<State>, runs: seq<Run>)
    requires IsHistory(states, runs)
    ensures |states| == |runs| + 1
  {
    hide Ran;
  }

  lemma NothingCame()
    ensures Lost([]) == 0 && Came([]) == 0
  {
  }

  /** What a counted run finds new is what its status adds to what came, less what it adds to what was lost. */
  lemma CountedNew(h: seq<Sight>, s: State, st: Status, key: string)
    requires if h == [] then Begun(s)
             else s.startedAt == Some(h[|h| - 1].process) && Get(s.counters, key) == h[|h| - 1].count
    ensures var h' := h + [Sight(st.startedAt, CountOf(st, key))];
            NewOf(s, st, key) + (Lost(h') - Lost(h)) == Came(h') - Came(h)
  {
    hide CountOf, Lost, Came;
    OneMoreSight(h, Sight(st.startedAt, CountOf(st, key)));
    SeenBefore(h);
  }

  lemma SeenBefore(h: seq<Sight>)
    ensures h != [] && h[|h| - 1].count.Some? ==> LastSeen(h) == h[|h| - 1].count.value
  {
  }

  /** What one more status adds to what came. */
  lemma OneMoreSight(h: seq<Sight>, x: Sight)
    ensures var h' := h + [x];
            && Lost(h') == Lost(h) + LostAt(h', |h|)
            && Came(h') - Came(h) ==
               if h == [] then 0
               else if x.process != h[|h| - 1].process then (if x.count.Some? then x.count.value else 0)
               else if x.count.Some? then x.count.value - LastSeen(h) else 0
  {
    var h' := h + [x];
    assert h'[..|h|] == h;
    if h != [] {
      assert h'[..1] == h[..1];
    } else {
      assert h'[..1] == h';
    }
  }

  /** Counters grow within a process and start from nothing. */
  ghost predicate Grows(h: seq<Sight>) {
    forall i :: 0 <= i < |h| && h[i].count.Some? ==>
      h[i].count.value >= if SameProcess(h, i) then LastSeen(h[..i]) else 0
  }

  ghost predicate NothingLost(h: seq<Sight>) {
    forall i :: 0 <= i < |h| && Reappears(h, i) ==> h[i].count.value == LastSeen(h[..i])
  }

  lemma {:induction false} LostIsNone(h: seq<Sight>)
    requires Grows(h)
    ensures Lost(h) >= 0 && (Lost(h) == 0 <==> NothingLost(h))
  {
    if h != [] {
      var n := |h| - 1;
      var h' := h[..n];
      assert forall i :: 0 <= i < n ==> h'[..i] == h[..i];
      assert forall i :: 0 <= i < n ==> SameProcess(h', i) == SameProcess(h, i) && Reappears(h', i) == Reappears(h, i);
      LostIsNone(h');
      assert NothingLost(h) <==> NothingLost(h') && LostAt(h, n) == 0 by {
        if NothingLost(h') && LostAt(h, n) == 0 {
          forall i | 0 <= i < |h| && Reappears(h, i)
            ensures h[i].count.value == LastSeen(h[..i])
          {
            if i < n {
              assert Reappears(h', i);
            }
          }
        }
        if NothingLost(h) {
          forall i | 0 <= i < n && Reappears(h', i)
            ensures h'[i].count.value == LastSeen(h'[..i])
          {
            assert Reappears(h, i);
          }
        }
      }
    }
  }

  /**
   With counters that grow within a process, the amounts reported as new sum
   to the last seen count of every process less the first status's, if and
   only if no status names the counter again, after one of the same process
   that did not, with more than was last seen.
   */
  lemma ConservedIff(states: seq<State>, runs: seq<Run>, key: string)
    requires IsHistory(states, runs) && Begun(states[0]) && Grows(Sights(runs, key))
    ensures Reported(states, runs, key) == Came(Sights(runs, key)) <==> NothingLost(Sights(runs, key))
  {
    Conservation(states, runs, key);
    LostIsNone(Sights(runs, key));
  }

  predicate AlwaysNamed(key: string) {
    key == "degraded" || key == "dropped" || key == "linkFallbacks" || key == "addOutran"
  }

  lemma {:induction false} NamedSights(runs: seq<Run>, key: string)
    requires AlwaysNamed(key)
    ensures forall i :: 0 <= i < |Sights(runs, key)| ==> Sights(runs, key)[i].count.Some?
  {
    if runs != [] {
      NamedSights(runs[..|runs| - 1], key);
    }
  }

  lemma {:induction false} NoneLost(h: seq<Sight>)
    requires forall i :: 0 <= i < |h| ==> h[i].count.Some?
    ensures Lost(h) == 0
  {
    if h != [] {
      NoneLost(h[..|h| - 1]);
    }
  }

  /** The counters every status names are conserved, whatever the runs. */
  lemma PlainConserved(states: seq<State>, runs: seq<Run>, key: string)
    requires IsHistory(states, runs) && Begun(states[0]) && AlwaysNamed(key)
    ensures Reported(states, runs, key) == Came(Sights(runs, key))
  {
    Conservation(states, runs, key);
    NamedSights(runs, key);
    NoneLost(Sights(runs, key));
  }

  // ---- event alerts: fired by a rise, for watchHold ----

  /** A run that saw the alert rise, and saved that. */
  ghost predicate SawRise(states: seq<State>, runs: seq<Run>, i: nat, a: string)
    requires i < |runs| && i < |states|
  {
    Counted(runs[i]) && Named(runs[i].obs.status.value, a) && Rose(states[i], runs[i].obs.status.value, a)
  }

  ghost predicate LastRise(states: seq<State>, runs: seq<Run>, i: nat, n: nat, a: string)
    requires n <= |runs| && n <= |states|
  {
    i < n && SawRise(states, runs, i, a) && forall k :: i < k < n ==> !SawRise(states, runs, k, a)
  }

  /** Every counted run from i on named the alert. */
  ghost predicate NamedSince(runs: seq<Run>, i: nat, n: nat, a: string)
    requires n <= |runs|
  {
    forall k :: i <= k < n && Counted(runs[k]) ==> Named(runs[k].obs.status.value, a)
  }

  /** The rise of run i would be held in the state before run n. */
  ghost predicate HeldFrom(states: seq<State>, runs: seq<Run>, i: nat, n: nat, a: string)
    requires n <= |runs| && n <= |states|
  {
    LastRise(states, runs, i, n, a) && NamedSince(runs, i, n, a)
  }

  lemma {:induction false} RisesKept(states: seq<State>, runs: seq<Run>, n: nat, a: string)
    requires IsHistory(states, runs) && ClockOk(runs) && states[0].rises == map[] && n <= |runs|
    ensures a in states[n].rises ==>
              exists i :: 0 <= i < n && HeldFrom(states, runs, i, n, a) && states[n].rises[a] == runs[i].now
    ensures a !in states[n].rises ==>
              forall i :: 0 <= i < n && HeldFrom(states, runs, i, n, a) ==>
                exists k :: i < k < n && runs[k].now - runs[i].now >= WATCH_HOLD
  {
    hide Ran, HeldFrom;
    if n > 0 {
      RisesKept(states, runs, n - 1, a);
      assert Ran(states[n - 1], runs[n - 1], states[n - 1 + 1]);
      if Counted(runs[n - 1]) {
        CountedRise(states, runs, n - 1, a);
      } else {
        UncountedRise(states, runs, n - 1, a);
      }
    }
  }

  /** The state's part of RisesKept. */
  ghost predicate Kept(states: seq<State>, runs: seq<Run>, n: nat, a: string)
    requires n <= |runs| && n < |states|
  {
    && (a in states[n].rises ==>
        exists i :: 0 <= i < n && HeldFrom(states, runs, i, n, a) && states[n].rises[a] == runs[i].now)
    && (a !in states[n].rises ==>
        forall i :: 0 <= i < n && HeldFrom(states, runs, i, n, a) ==>
          exists k :: i < k < n && runs[k].now - runs[i].now >= WATCH_HOLD)
  }

  lemma UncountedRise(states: seq<State>, runs: seq<Run>, n: nat, a: string)
    requires n < |runs| && n + 1 < |states| && !Counted(runs[n]) && Kept(states, runs, n, a)
    requires Ran(states[n], runs[n], states[n + 1])
    ensures Kept(states, runs, n + 1, a)
  {
    hide Told, RiseAfter, LagSince, CountOf;
    assert states[n + 1].rises == states[n].rises;
    if a in states[n].rises {
      var i :| 0 <= i < n && HeldFrom(states, runs, i, n, a) && states[n].rises[a] == runs[i].now;
      assert HeldFrom(states, runs, i, n + 1, a);
    } else {
      forall i | 0 <= i < n + 1 && HeldFrom(states, runs, i, n + 1, a)
        ensures exists k :: i < k < n + 1 && runs[k].now - runs[i].now >= WATCH_HOLD
      {
        assert HeldFrom(states, runs, i, n, a);
      }
    }
  }

  lemma CountedRise(states: seq<State>, runs: seq<Run>, n: nat, a: string)
    requires n < |runs| && n + 1 < |states| && Counted(runs[n]) && Kept(states, runs, n, a) && ClockOk(runs)
    requires Ran(states[n], runs[n], states[n + 1])
    ensures Kept(states, runs, n + 1, a)
  {
    hide Told, LagSince, CountOf, KeyOf, Rose, Named;
    var st := runs[n].obs.status.value;
    assert Get(states[n + 1].rises, a) == RiseAfter(states[n], st, runs[n].now, a);
    if !Named(st, a) {
      var m := n + 1;
      assert forall i :: 0 <= i < m ==> !HeldFrom(states, runs, i, m, a);
    } else if Rose(states[n], st, a) {
      assert SawRise(states, runs, n, a);
      assert HeldFrom(states, runs, n, n + 1, a);
    } else if a in states[n].rises {
      var i :| 0 <= i < n && HeldFrom(states, runs, i, n, a) && states[n].rises[a] == runs[i].now;
      assert HeldFrom(states, runs, i, n + 1, a);
      OneLastRise(states, runs, i, n + 1, a);
    } else {
      forall i | 0 <= i < n + 1 && HeldFrom(states, runs, i, n + 1, a)
        ensures exists k :: i < k < n + 1 && runs[k].now - runs[i].now >= WATCH_HOLD
      {
        assert HeldFrom(states, runs, i, n, a);
      }
    }
  }

  lemma OneLastRise(states: seq<State>, runs: seq<Run>, i: nat, n: nat, a: string)
    requires n <= |runs| && n <= |states| && LastRise(states, runs, i, n, a)
    ensures forall j :: 0 <= j < n && LastRise(states, runs, j, n, a) ==> j == i
  {
  }

  /** An event alert is none of the alerts about how things stand. */
  lemma EventOnly(obs: Observation, prev: State, now: Time, a: string)
    requires obs.status.Some? && Named(obs.status.value, a)
    ensures Fires(obs, prev, now, a) <==> RiseAfter(prev, obs.status.value, now, a).Some?
  {
    hide RiseAfter, CountOf, LagSince;
    EventName(a);
    forall i | 0 <= i < |obs.status.value.budgets|
      ensures !OverBudget(obs.status.value.budgets[i], a)
    {
      var kind := obs.status.value.budgets[i].kind;
      assert ("budget-high:" + kind)[0] == 'b' && ("budget-high:" + kind)[1] == 'u';
      assert ("budget-held:" + kind)[0] == 'b' && ("budget-held:" + kind)[1] == 'u';
    }
  }

  lemma EventName(a: string)
    requires a == "restart" || KeyOf(a).Some?
    ensures a != "ready" && a != "health" && a != "partial-search" && a != "backlog-age" && a != "backlog-lag"
    ensures |a| > 1 && !(a[0] == 'b' && a[1] == 'u')
  {
    if Prefixed(BREAKER, a) {
      assert a[0] == BREAKER[0] && a[1] == BREAKER[1];
    } else if Prefixed(REJECTED, a) {
      assert a[0] == REJECTED[0] && a[1] == REJECTED[1];
    }
  }

  /**
   An event alert the status names fires if and only if the run saw it rise,
   or less than watchHold has passed since the last run that saw it rise and
   every status read since named it.
   */
  lemma FiresWhileHeld(states: seq<State>, runs: seq<Run>, n: nat, a: string)
    requires IsHistory(states, runs) && ClockOk(runs) && states[0].rises == map[] && n < |runs|
    requires runs[n].obs.status.Some? && Named(runs[n].obs.status.value, a)
    ensures Fires(runs[n].obs, states[n], runs[n].now, a) <==>
              || Rose(states[n], runs[n].obs.status.value, a)
              || exists i :: 0 <= i < n && HeldFrom(states, runs, i, n, a) && runs[n].now - runs[i].now < WATCH_HOLD
  {
    hide Ran, HeldFrom, Fires, Rose, Named;
    EventOnly(runs[n].obs, states[n], runs[n].now, a);
    RisesKept(states, runs, n, a);
    if a in states[n].rises {
      var i :| 0 <= i < n && HeldFrom(states, runs, i, n, a) && states[n].rises[a] == runs[i].now;
      OneHeld(states, runs, i, n, a);
    }
  }

  lemma OneHeld(states: seq<State>, runs: seq<Run>, i: nat, n: nat, a: string)
    requires n <= |runs| && n <= |states| && HeldFrom(states, runs, i, n, a)
    ensures forall j :: 0 <= j < n && HeldFrom(states, runs, j, n, a) ==> j == i
  {
    OneLastRise(states, runs, i, n, a);
  }

  /** An alert every status names: exactly while less than watchHold has passed since its last rise. */
  lemma PlainFires(states: seq<State>, runs: seq<Run>, n: nat, a: string)
    requires IsHistory(states, runs) && ClockOk(runs) && states[0].rises == map[] && n < |runs|
    requires runs[n].obs.status.Some?
    requires a == "restart" || (KeyOf(a).Some? && AlwaysNamed(KeyOf(a).value))
    ensures Fires(runs[n].obs, states[n], runs[n].now, a) <==>
              || Rose(states[n], runs[n].obs.status.value, a)
              || exists i :: 0 <= i < n && LastRise(states, runs, i, n, a) && runs[n].now - runs[i].now < WATCH_HOLD
  {
    hide Ran, Fires, Rose, LastRise;
    forall i, k | 0 <= i <= k <= |runs|
      ensures NamedSince(runs, i, k, a)
    {
    }
    FiresWhileHeld(states, runs, n, a);
    assert forall i :: 0 <= i < n ==> (HeldFrom(states, runs, i, n, a) <==> LastRise(states, runs, i, n, a));
  }

  // ---- the backlog above its bound ----

  /** The counted runs from i on are of one process and all saw the backlog above its bound. */
  ghost predicate Streak(runs: seq<Run>, i: nat, n: nat)
    requires n <= |runs|
  {
    && i < n && Counted(runs[i])
    && forall k :: i <= k < n && Counted(runs[k]) ==>
      && AboveBound(runs[k].obs.status.value)
      && runs[k].obs.status.value.startedAt == runs[i].obs.status.value.startedAt
  }

  /** Run i begins the streak that lasts up to run n: no counted run before it could. */
  ghost predicate StreakFrom(runs: seq<Run>, i: nat, n: nat)
    requires n <= |runs|
  {
    Streak(runs, i, n) && forall j :: 0 <= j < i ==> !Streak(runs, j, n)
  }

  ghost predicate LagKept(states: seq<State>, runs: seq<Run>, n: nat)
    requires n <= |runs| && n < |states|
  {
    && (forall k :: 0 <= k < n && Counted(runs[k]) ==> states[n].startedAt.Some?)
    && (forall i :: 0 <= i < n && Streak(runs, i, n) ==>
        states[n].startedAt == Some(runs[i].obs.status.value.startedAt))
    && ("backlog-lag" in states[n].since ==>
        exists i :: 0 <= i < n && StreakFrom(runs, i, n) && states[n].since["backlog-lag"] == runs[i].now)
    && ("backlog-lag" !in states[n].since ==> forall i :: 0 <= i < n ==> !Streak(runs, i, n))
  }

  lemma UncountedLag(states: seq<State>, runs: seq<Run>, n: nat)
    requires n < |runs| && n + 1 < |states| && !Counted(runs[n]) && LagKept(states, runs, n)
    requires Ran(states[n], runs[n], states[n + 1])
    ensures LagKept(states, runs, n + 1)
  {
    hide Told, RiseAfter, LagSince, CountOf;
    assert states[n + 1].since == states[n].since && states[n + 1].startedAt == states[n].startedAt;
    var m := n + 1;
    assert forall i :: 0 <= i < m ==> (Streak(runs, i, m) <==> i < n && Streak(runs, i, n));
    if "backlog-lag" in states[n].since {
      var i :| 0 <= i < n && StreakFrom(runs, i, n) && states[n].since["backlog-lag"] == runs[i].now;
      assert StreakFrom(runs, i, m);
    }
  }

  lemma CountedLag(states: seq<State>, runs: seq<Run>, n: nat)
    requires n < |runs| && n + 1 < |states| && Counted(runs[n]) && LagKept(states, runs, n)
    requires Ran(states[n], runs[n], states[n + 1])
    ensures LagKept(states, runs, n + 1)
  {
    hide Told, RiseAfter, CountOf;
    var st, m := runs[n].obs.status.value, n + 1;
    assert Get(states[m].since, "backlog-lag") == LagSince(states[n], st, runs[n].now);
    StreakGrows(states, runs, n);
    if AboveBound(st) {
      if "backlog-lag" in states[n].since && !Restarted(states[n], st) {
        var i :| 0 <= i < n && StreakFrom(runs, i, n) && states[n].since["backlog-lag"] == runs[i].now;
        assert StreakFrom(runs, i, m);
      } else {
        assert StreakFrom(runs, n, m);
      }
    }
  }

  lemma StreakGrows(states: seq<State>, runs: seq<Run>, n: nat)
    requires n < |runs| && n < |states| && Counted(runs[n]) && LagKept(states, runs, n)
    ensures var m, st := n + 1, runs[n].obs.status.value;
            forall i :: 0 <= i < m ==>
              (Streak(runs, i, m) <==> AboveBound(st) && (i == n || (Streak(runs, i, n) && !Restarted(states[n], st))))
  {
    var m, st := n + 1, runs[n].obs.status.value;
    forall i | 0 <= i < m
      ensures Streak(runs, i, m) <==> AboveBound(st) && (i == n || (Streak(runs, i, n) && !Restarted(states[n], st)))
    {
      if i < n && Streak(runs, i, m) {
        assert Streak(runs, i, n);
      }
    }
  }

  lemma {:induction false} LagKeptAlways(states: seq<State>, runs: seq<Run>, n: nat)
    requires IsHistory(states, runs) && Begun(states[0]) && states[0].since == map[] && n <= |runs|
    ensures LagKept(states, runs, n)
  {
    hide Ran, LagKept;
    if n == 0 {
      NoLagYet(states, runs);
    } else {
      LagKeptAlways(states, runs, n - 1);
      assert Ran(states[n - 1], runs[n - 1], states[n - 1 + 1]);
      if Counted(runs[n - 1]) {
        CountedLag(states, runs, n - 1);
      } else {
        UncountedLag(states, runs, n - 1);
      }
    }
  }

  lemma NoLagYet(states: seq<State>, runs: seq<Run>)
    requires |states| > 0 && states[0].since == map[]
    ensures LagKept(states, runs, 0)
  {
  }

  /**
   backlog-lag fires if and only if every status read for at least watchLagFor
   of runs, of one process, had the backlog above its bound, this one included.
   */
  lemma LagFires(states: seq<State>, runs: seq<Run>, n: nat)
    requires IsHistory(states, runs) && Begun(states[0]) && states[0].since == map[] && n < |runs| && Counted(runs[n])
    ensures Fires(runs[n].obs, states[n], runs[n].now, "backlog-lag") <==>
              exists i :: 0 <= i <= n && StreakFrom(runs, i, n + 1) && runs[n].now - runs[i].now >= LAG_FOR
  {
    hide Ran, StreakFrom;
    LagKeptAlways(states, runs, n + 1);
    assert Ran(states[n], runs[n], states[n + 1]);
    LagAfter(states[n], runs[n], states[n + 1]);
    OneStreak(runs, n + 1);
    StreakAny(runs, n + 1);
  }

  lemma LagAfter(prev: State, r: Run, next: State)
    requires Ran(prev, r, next) && Counted(r)
    ensures Fires(r.obs, prev, r.now, "backlog-lag") <==>
              "backlog-lag" in next.since && r.now - next.since["backlog-lag"] >= LAG_FOR
  {
    hide Told;
    var st := r.obs.status.value;
    assert Get(next.since, "backlog-lag") == LagSince(prev, st, r.now);
    assert !Named(st, "backlog-lag") by { NotAnEvent(); }
    forall i | 0 <= i < |st.budgets|
      ensures !OverBudget(st.budgets[i], "backlog-lag")
    {
      assert ("budget-high:" + st.budgets[i].kind)[1] == 'u' && ("budget-held:" + st.budgets[i].kind)[1] == 'u';
    }
  }

  lemma NotAnEvent()
    ensures KeyOf("backlog-lag").None?
  {
    NotBreaker("backlog-lag", BREAKER);
    NotBreaker("backlog-lag", REJECTED);
  }

  lemma NotBreaker(a: string, prefix: string)
    requires |a| > 1 && |prefix| > 1 && a[1] != prefix[1]
    ensures !Prefixed(prefix, a)
  {
  }

  lemma OneStreak(runs: seq<Run>, n: nat)
    requires n <= |runs|
    ensures forall i, j :: 0 <= i < n && 0 <= j < n && StreakFrom(runs, i, n) && StreakFrom(runs, j, n) ==> i == j
  {
  }

  lemma StreakAny(runs: seq<Run>, n: nat)
    requires n <= |runs|
    ensures forall i :: 0 <= i < n && StreakFrom(runs, i, n) ==> Streak(runs, i, n)
  {
  }
}
