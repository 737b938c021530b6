/**
 When each alert fires, by the numbers of the status and the state the last
 run saved, and when each message is due, by the clock.
 */
module WatchLaws {
  import opened Common
  import opened Orders
  import opened WatchRules
  import opened WatchAlerts
  import opened WatchRuns

  // ---- the alerts about something that happened ----

  /** A count that is more than the last status of its process had; a new process counts from nothing. */
  predicate Grew(prev: State, st: Status, key: string, count: int) {
    match prev.startedAt
    case None => false
    case Some(process) =>
      if process == st.startedAt then key in prev.counters && count > prev.counters[key] else count > 0
  }

  /** An alert fires in a run that saw it rise and for ten minutes after, and the state remembers the rise. */
  ghost predicate FiresOn(prev: State, now: Time, next: State, firing: set<string>, alert: string, rose: bool) {
    if rose then alert in firing && Get(next.rises, alert) == Some(now)
    else if alert in prev.rises && now - prev.rises[alert] < 10 * MINUTE then
      alert in firing && Get(next.rises, alert) == Some(prev.rises[alert])
    else alert !in firing && alert !in next.rises
  }

  /** A named event alert, from whether it rose. */
  lemma EventLaw(obs: Observation, prev: State, now: Time, next: State, firing: set<string>, frozen: set<string>,
                 alert: string)
    requires Evaluated(obs, prev, now, next, firing, frozen) && obs.status.Some? && Named(obs.status.value, alert)
    ensures FiresOn(prev, now, next, firing, alert, Rose(prev, obs.status.value, alert))
  {
    hide Named, Rose, Fires, CountOf, LagSince;
    EventOnly(obs, prev, now, alert);
    assert Get(next.rises, alert) == RiseAfter(prev, obs.status.value, now, alert);
    assert alert in firing <==> Fires(obs, prev, now, alert);
  }

  /** An alert about a counter, whose count the next state keeps. */
  lemma CounterLaw(obs: Observation, prev: State, now: Time, next: State, firing: set<string>, frozen: set<string>,
                   alert: string, key: string, count: int)
    requires Evaluated(obs, prev, now, next, firing, frozen) && obs.status.Some?
    requires alert != "restart" && KeyOf(alert) == Some(key) && CountOf(obs.status.value, key) == Some(count)
    requires !BreakerOpen(obs.status.value, alert)
    ensures FiresOn(prev, now, next, firing, alert, Grew(prev, obs.status.value, key, count))
    ensures Get(next.counters, key) == Some(count)
  {
    hide KeyOf, CountOf, BreakerOpen, LagSince, FiresOn, Fires, RiseAfter;
    EventLaw(obs, prev, now, next, firing, frozen, alert);
    assert Rose(prev, obs.status.value, alert) <==> Grew(prev, obs.status.value, key, count);
  }

  /** The counters every status has, and the restart. */
  lemma PlainLaw(obs: Observation, prev: State, now: Time, next: State, firing: set<string>, frozen: set<string>)
    requires Evaluated(obs, prev, now, next, firing, frozen) && obs.status.Some?
    ensures var st := obs.status.value;
            && FiresOn(prev, now, next, firing, "degraded-search", Grew(prev, st, "degraded", st.degraded))
            && FiresOn(prev, now, next, firing, "consolidation-dropped", Grew(prev, st, "dropped", st.dropped))
            && FiresOn(prev, now, next, firing, "link-fallback", Grew(prev, st, "linkFallbacks", st.linkFallbacks))
            && FiresOn(prev, now, next, firing, "add-outran", Grew(prev, st, "addOutran", st.addOutran))
            && FiresOn(prev, now, next, firing, "restart",
                       prev.startedAt != None && prev.startedAt != Some(st.startedAt))
            && next.startedAt == Some(st.startedAt)
            && Get(next.counters, "degraded") == Some(st.degraded) && Get(next.counters, "dropped") == Some(st.dropped)
            && Get(next.counters, "linkFallbacks") == Some(st.linkFallbacks)
            && Get(next.counters, "addOutran") == Some(st.addOutran)
  {
    hide KeyOf, CountOf, BreakerOpen, FiresOn, Grew, Fires, RiseAfter, LagSince;
    var st := obs.status.value;
    CounterNames(st);
    CounterLaw(obs, prev, now, next, firing, frozen, "degraded-search", "degraded", st.degraded);
    CounterLaw(obs, prev, now, next, firing, frozen, "consolidation-dropped", "dropped", st.dropped);
    CounterLaw(obs, prev, now, next, firing, frozen, "link-fallback", "linkFallbacks", st.linkFallbacks);
    CounterLaw(obs, prev, now, next, firing, frozen, "add-outran", "addOutran", st.addOutran);
    EventLaw(obs, prev, now, next, firing, frozen, "restart");
  }

  /**
   A breaker: its alert fires in every run that finds it open or tripped since
   the last status of its process, and is held like the others; a kind no
   status names fires nothing and is forgotten.
   */
  lemma BreakerLaw(obs: Observation, prev: State, now: Time, next: State, firing: set<string>, frozen: set<string>,
                   kind: string)
    requires Evaluated(obs, prev, now, next, firing, frozen) && obs.status.Some?
    ensures var st := obs.status.value;
            var open := kind in st.breakers && st.breakers[kind];
            var trips := if kind in st.trips then st.trips[kind] else 0;
            if kind in st.breakers || kind in st.trips then
              && (open ==> "breaker-open:" + kind in firing)
              && FiresOn(prev, now, next, firing, "breaker-open:" + kind,
                         open || Grew(prev, st, "trips:" + kind, trips))
              && Get(next.counters, "trips:" + kind) == Some(trips)
            else
              && "breaker-open:" + kind !in firing && "breaker-open:" + kind !in next.rises
              && "trips:" + kind !in next.counters
  {
    hide KeyOf, CountOf, BreakerOpen, FiresOn, Fires, RiseAfter, LagSince;
    var st, alert, key := obs.status.value, BREAKER + kind, TRIPS_KEY + kind;
    assert Get(next.counters, key) == CountOf(st, key);
    if kind in Kinds(st) {
      BreakerNames(st, kind);
      EventLaw(obs, prev, now, next, firing, frozen, alert);
      OpenFires(prev, now, next, firing, alert, Rose(prev, st, alert));
    } else {
      NotTrips(st, kind);
      UnnamedLaw(obs, prev, now, next, firing, frozen, alert, key);
    }
  }

  lemma OpenFires(prev: State, now: Time, next: State, firing: set<string>, alert: string, rose: bool)
    requires FiresOn(prev, now, next, firing, alert, rose)
    ensures rose ==> alert in firing
  {
  }

  /** The rejected requests of a provider kind. */
  lemma RejectedLaw(obs: Observation, prev: State, now: Time, next: State, firing: set<string>, frozen: set<string>,
                    kind: string)
    requires Evaluated(obs, prev, now, next, firing, frozen) && obs.status.Some?
    ensures var st := obs.status.value;
            if kind in st.rejected then
              && FiresOn(prev, now, next, firing, "provider-rejected:" + kind,
                         Grew(prev, st, "rejected:" + kind, st.rejected[kind]))
              && Get(next.counters, "rejected:" + kind) == Some(st.rejected[kind])
            else
              && "provider-rejected:" + kind !in firing && "provider-rejected:" + kind !in next.rises
              && "rejected:" + kind !in next.counters
  {
    hide KeyOf, CountOf, BreakerOpen, FiresOn, Grew, Fires, RiseAfter, LagSince;
    var st, alert, key := obs.status.value, REJECTED + kind, REJECTED_KEY + kind;
    assert Get(next.counters, key) == CountOf(st, key);
    if kind in st.rejected {
      RejectedNames(st, kind);
      CounterLaw(obs, prev, now, next, firing, frozen, alert, key, st.rejected[kind]);
    } else {
      NotRejected(st, kind);
      UnnamedLaw(obs, prev, now, next, firing, frozen, alert, key);
    }
  }

  lemma UnnamedLaw(obs: Observation, prev: State, now: Time, next: State, firing: set<string>, frozen: set<string>,
                   alert: string, key: string)
    requires Evaluated(obs, prev, now, next, firing, frozen) && obs.status.Some?
    requires CountOf(obs.status.value, key).None?
    requires (exists kind :: alert == BREAKER + kind && key == TRIPS_KEY + kind)
             || (exists kind :: alert == REJECTED + kind && key == REJECTED_KEY + kind)
    ensures alert !in firing && alert !in next.rises && key !in next.counters
  {
    hide CountOf, LagSince;
    KindKey(alert, key);
    EventName(alert);
    NotBudget(obs.status.value, alert);
    assert Get(next.rises, alert) == RiseAfter(prev, obs.status.value, now, alert);
    assert Get(next.counters, key) == CountOf(obs.status.value, key);
  }

  lemma KindKey(alert: string, key: string)
    requires (exists kind :: alert == BREAKER + kind && key == TRIPS_KEY + kind)
             || (exists kind :: alert == REJECTED + kind && key == REJECTED_KEY + kind)
    ensures KeyOf(alert) == Some(key) && alert != "restart"
  {
    if kind :| alert == BREAKER + kind && key == TRIPS_KEY + kind {
      Rest(BREAKER, kind);
      assert alert[0] == 'b';
    } else {
      var kind :| alert == REJECTED + kind && key == REJECTED_KEY + kind;
      Rest(REJECTED, kind);
      assert alert[0] == 'p';
    }
  }

  lemma NotBudget(st: Status, alert: string)
    requires |alert| > 1 && !(alert[0] == 'b' && alert[1] == 'u')
    ensures forall i :: 0 <= i < |st.budgets| ==> !OverBudget(st.budgets[i], alert)
  {
    forall i | 0 <= i < |st.budgets|
      ensures !OverBudget(st.budgets[i], alert)
    {
      var kind := st.budgets[i].kind;
      assert ("budget-high:" + kind)[0] == 'b' && ("budget-high:" + kind)[1] == 'u';
      assert ("budget-held:" + kind)[0] == 'b' && ("budget-held:" + kind)[1] == 'u';
    }
  }

  // ---- the alerts about how things stand ----

  /** A name that is no event alert's: it fires by how things stand, or by a probe. */
  lemma StandingOnly(obs: Observation, prev: State, now: Time, next: State, firing: set<string>, frozen: set<string>,
                     alert: string)
    requires Evaluated(obs, prev, now, next, firing, frozen) && alert != "restart" && KeyOf(alert).None?
    ensures alert in firing <==>
              Probed(obs, alert) || (obs.status.Some? && Stands(prev, obs.status.value, now, alert))
  {
    hide KeyOf, Stands, CountOf, LagSince;
  }

  lemma StandingNames()
    ensures forall a :: a in {"partial-search", "backlog-age", "backlog-lag", "ready", "health"} ==>
              a != "restart" && KeyOf(a).None?
  {
    forall a | a in {"partial-search", "backlog-age", "backlog-lag", "ready", "health"}
      ensures !Prefixed(BREAKER, a) && !Prefixed(REJECTED, a)
    {
      if a == "partial-search" {
        NotBreaker(a, BREAKER);
        NotBreaker(a, REJECTED);
      } else if a == "backlog-age" || a == "backlog-lag" {
        NotBreaker(a, BREAKER);
        NotBreaker(a, REJECTED);
      }
    }
  }

  /**
   The alerts about how things stand: partial Searches above 5% of at least
   20, the oldest work above 15 minutes, the backlog above its bound for 15
   minutes of statuses of one process, and the two probes.
   */
  lemma StandingLaw(obs: Observation, prev: State, now: Time, next: State, firing: set<string>, frozen: set<string>)
    requires Evaluated(obs, prev, now, next, firing, frozen)
    ensures "ready" in firing <==> obs.readyBad || obs.status.None?
    ensures "health" in firing <==> obs.healthBad
    ensures obs.status.Some? ==>
              var st := obs.status.value;
              && ("partial-search" in firing <==> st.searches >= 20 && 20 * st.partialSearches > st.searches)
              && ("backlog-age" in firing <==> st.oldestQueued > 15 * MINUTE)
              && ("backlog-lag" in firing <==>
                  && 0 < st.lagBound < st.maxBacklog
                  && "backlog-lag" in prev.since && (prev.startedAt == None || prev.startedAt == Some(st.startedAt))
                  && now - prev.since["backlog-lag"] >= 15 * MINUTE)
  {
    hide Evaluated, Stands;
    forall a | a in {"partial-search", "backlog-age", "backlog-lag", "ready", "health"}
      ensures a in firing <==> Probed(obs, a) || (obs.status.Some? && Stands(prev, obs.status.value, now, a))
    {
      StandingNames();
      StandingOnly(obs, prev, now, next, firing, frozen, a);
    }
    if obs.status.Some? {
      StandsLaw(prev, obs.status.value, now);
    }
  }

  lemma StandsLaw(prev: State, st: Status, now: Time)
    ensures !Stands(prev, st, now, "ready") && !Stands(prev, st, now, "health")
    ensures Stands(prev, st, now, "partial-search") <==> st.searches >= 20 && 20 * st.partialSearches > st.searches
    ensures Stands(prev, st, now, "backlog-age") <==> st.oldestQueued > 15 * MINUTE
    ensures Stands(prev, st, now, "backlog-lag") <==>
              && 0 < st.lagBound < st.maxBacklog
              && "backlog-lag" in prev.since && (prev.startedAt == None || prev.startedAt == Some(st.startedAt))
              && now - prev.since["backlog-lag"] >= 15 * MINUTE
  {
    hide OverBudget;
    NotBudget(st, "ready");
    NotBudget(st, "health");
    NotBudget(st, "partial-search");
    NotBudget(st, "backlog-age");
    NotBudget(st, "backlog-lag");
  }

  /** With 100 Searches the sixth partial one fires it, and with fewer than 20 none does. */
  lemma PartialOfHundred(obs: Observation, prev: State, now: Time, next: State, firing: set<string>,
                         frozen: set<string>)
    requires Evaluated(obs, prev, now, next, firing, frozen) && obs.status.Some?
    ensures obs.status.value.searches == 100 ==>
              ("partial-search" in firing <==> obs.status.value.partialSearches > 5)
    ensures obs.status.value.searches < 20 ==> "partial-search" !in firing
  {
    hide Evaluated;
    StandingLaw(obs, prev, now, next, firing, frozen);
  }

  /** Some account of the kind has a finite cap above 0 and more than this share of it used, or held. */
  ghost predicate Above(st: Status, kind: string, share: real, heldOnly: bool) {
    exists i :: 0 <= i < |st.budgets| && st.budgets[i].kind == kind && Exceeds(st.budgets[i], share, heldOnly)
  }

  predicate Exceeds(a: Account, share: real, heldOnly: bool) {
    a.cap.Some? && a.cap.value > 0.0 && (if heldOnly then a.held else a.spent + a.held) > share * a.cap.value
  }

  /** The budgets: more than 80% of a cap spent and held, more than 2% of it held. */
  lemma BudgetLaw(obs: Observation, prev: State, now: Time, next: State, firing: set<string>, frozen: set<string>,
                  kind: string)
    requires Evaluated(obs, prev, now, next, firing, frozen) && obs.status.Some?
    ensures "budget-high:" + kind in firing <==> Above(obs.status.value, kind, 0.80, false)
    ensures "budget-held:" + kind in firing <==> Above(obs.status.value, kind, 0.02, true)
  {
    hide KeyOf, RiseAfter, CountOf, Stands, OverBudget, Exceeds;
    var st := obs.status.value;
    BudgetNames(kind);
    StandingOnly(obs, prev, now, next, firing, frozen, "budget-high:" + kind);
    StandingOnly(obs, prev, now, next, firing, frozen, "budget-held:" + kind);
    BudgetStands(prev, st, now, "budget-high:" + kind);
    BudgetStands(prev, st, now, "budget-held:" + kind);
    forall i | 0 <= i < |st.budgets|
      ensures OverBudget(st.budgets[i], "budget-high:" + kind) <==>
                st.budgets[i].kind == kind && Exceeds(st.budgets[i], 0.80, false)
      ensures OverBudget(st.budgets[i], "budget-held:" + kind) <==>
                st.budgets[i].kind == kind && Exceeds(st.budgets[i], 0.02, true)
    {
      OverIs(st.budgets[i], kind);
    }
  }

  lemma BudgetNames(kind: string)
    ensures forall a :: a == "budget-high:" + kind || a == "budget-held:" + kind ==>
              a != "restart" && KeyOf(a).None? && |a| > 1 && a[1] == 'u'
  {
    forall a | a == "budget-high:" + kind || a == "budget-held:" + kind
      ensures a != "restart" && KeyOf(a).None? && |a| > 1 && a[1] == 'u'
    {
      assert a[0] == 'b' && a[1] == 'u';
      NotBreaker(a, BREAKER);
      NotBreaker(a, REJECTED);
    }
  }

  lemma BudgetStands(prev: State, st: Status, now: Time, alert: string)
    requires |alert| > 1 && alert[1] == 'u'
    ensures Stands(prev, st, now, alert) <==> exists i :: 0 <= i < |st.budgets| && OverBudget(st.budgets[i], alert)
  {
    hide OverBudget, LagSince;
  }

  lemma OverIs(a: Account, kind: string)
    ensures OverBudget(a, "budget-high:" + kind) <==> a.kind == kind && Exceeds(a, 0.80, false)
    ensures OverBudget(a, "budget-held:" + kind) <==> a.kind == kind && Exceeds(a, 0.02, true)
  {
    var high, held := "budget-high:" + kind, "budget-held:" + kind;
    assert high[8] == 'i' && held[8] == 'e';
    assert ("budget-high:" + a.kind)[8] == 'i' && ("budget-held:" + a.kind)[8] == 'e';
    if high == "budget-high:" + a.kind {
      SameRest("budget-high:", kind, a.kind);
    }
    if held == "budget-held:" + a.kind {
      SameRest("budget-held:", kind, a.kind);
    }
    if a.cap.Some? && a.cap.value > 0.0 {
      Share(a.spent + a.held, a.cap.value, 0.80);
      Share(a.held, a.cap.value, 0.02);
    }
  }

  lemma Share(part: real, whole: real, share: real)
    requires whole > 0.0
    ensures part / whole > share <==> part > share * whole
  {
    assert part == (part / whole) * whole;
  }

  /** The names a status can make fire. */
  ghost predicate InStatus(st: Status, alert: string) {
    || alert in {"restart", "degraded-search", "consolidation-dropped", "link-fallback", "add-outran"}
    || alert in {"partial-search", "backlog-age", "backlog-lag"}
    || (exists kind :: kind in Kinds(st) && alert == "breaker-open:" + kind)
    || (exists kind :: kind in st.rejected && alert == "provider-rejected:" + kind)
    || (exists i :: 0 <= i < |st.budgets| && OfAccount(st.budgets[i], alert))
  }

  predicate OfAccount(a: Account, alert: string) {
    alert == "budget-high:" + a.kind || alert == "budget-held:" + a.kind
  }

  /** Nothing fires but the alerts above. */
  lemma NothingElse(obs: Observation, prev: State, now: Time, next: State, firing: set<string>, frozen: set<string>,
                    alert: string)
    requires Evaluated(obs, prev, now, next, firing, frozen) && alert in firing
    ensures alert == "ready" || alert == "health" || (obs.status.Some? && InStatus(obs.status.value, alert))
  {
    hide KeyOf, CountOf, LagSince, Named;
    if obs.status.Some? && RiseAfter(prev, obs.status.value, now, alert).Some? {
      AllNamed(obs.status.value);
    } else if exists i :: obs.status.Some? && 0 <= i < |obs.status.value.budgets|
                          && OverBudget(obs.status.value.budgets[i], alert) {
      var i :| 0 <= i < |obs.status.value.budgets| && OverBudget(obs.status.value.budgets[i], alert);
      assert OfAccount(obs.status.value.budgets[i], alert);
    }
  }

  /** A status that cannot be read leaves what it would speak for as it was; one that can be freezes nothing. */
  lemma UnreadableLaw(obs: Observation, prev: State, now: Time, next: State, firing: set<string>, frozen: set<string>)
    requires Evaluated(obs, prev, now, next, firing, frozen)
    ensures obs.status.None? ==>
              && frozen == prev.firing.Keys - {"ready", "health"}
              && next.counters == prev.counters && next.rises == prev.rises && next.since == prev.since
              && next.startedAt == prev.startedAt
    ensures obs.status.Some? ==> frozen == {}
  {
    hide Fires;
    assert forall a :: a in frozen <==> Frozen(obs, prev, a);
  }
}
