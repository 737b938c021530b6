/**
 The alert watcher's rules (cmd/memory/aml_watch.go): one application of them
 to what a run read and the state the last run saved. Alerts and counters go
 by the names the state file has; the values' wording is left out. Times are
 nanoseconds.
 */
module WatchRules {
  import opened Common

  type Time = int

  const MINUTE: int := 60 * 1_000_000_000
  const WATCH_REPEAT: int := 30 * MINUTE
  const WATCH_HOLD: int := 10 * MINUTE
  const BACKLOG_AGE: int := 15 * MINUTE
  const LAG_FOR: int := 15 * MINUTE
  const PARTIAL_PERCENT: int := 5
  const PARTIAL_SEARCHES: int := 20

  /** An alert in the state: since when, and when its message last went out (watchAlert). */
  datatype Alert = Alert(since: Time, lastSent: Option<Time>)

  datatype State = State(
    startedAt: Option<Time>, counters: map<string, int>, rises: map<string, Time>,
    since: map<string, Time>, firing: map<string, Alert>)

  /** A budget account; an unlimited or infinite cap is None. */
  datatype Account = Account(kind: string, cap: Option<real>, spent: real, held: real)

  datatype Status = Status(
    startedAt: Time, degraded: int, dropped: int, linkFallbacks: int, addOutran: int,
    breakers: map<string, bool>, trips: map<string, int>, rejected: map<string, int>,
    searches: int, partialSearches: int, budgets: seq<Account>,
    oldestQueued: int, lagBound: int, maxBacklog: int)

  /** What a run read: whether each probe went wrong, and the status if it could be read. */
  datatype Observation = Observation(readyBad: bool, healthBad: bool, status: Option<Status>)

  function Get<V>(m: map<string, V>, k: string): Option<V> {
    if k in m then Some(m[k]) else None
  }

  const BREAKER: string := "breaker-open:"
  const REJECTED: string := "provider-rejected:"
  const TRIPS_KEY: string := "trips:"
  const REJECTED_KEY: string := "rejected:"

  // ---- what a status says, by name ----

  predicate Prefixed(prefix: string, name: string) {
    |prefix| <= |name| && name[..|prefix|] == prefix
  }

  predicate HasBreaker(st: Status, kind: string) {
    kind in st.breakers || kind in st.trips
  }

  function TripsOf(st: Status, kind: string): int {
    if kind in st.trips then st.trips[kind] else 0
  }

  /** The count a status gives a counter of the state, if it names it. */
  function CountOf(st: Status, key: string): Option<int> {
    if key == "degraded" then Some(st.degraded)
    else if key == "dropped" then Some(st.dropped)
    else if key == "linkFallbacks" then Some(st.linkFallbacks)
    else if key == "addOutran" then Some(st.addOutran)
    else if Prefixed(TRIPS_KEY, key) && HasBreaker(st, key[|TRIPS_KEY|..]) then Some(TripsOf(st, key[|TRIPS_KEY|..]))
    else if Prefixed(REJECTED_KEY, key) then Get(st.rejected, key[|REJECTED_KEY|..])
    else None
  }

  /** The counter an event alert is about: restart has none. */
  function KeyOf(alert: string): Option<string> {
    if alert == "degraded-search" then Some("degraded")
    else if alert == "consolidation-dropped" then Some("dropped")
    else if alert == "link-fallback" then Some("linkFallbacks")
    else if alert == "add-outran" then Some("addOutran")
    else if Prefixed(BREAKER, alert) then Some(TRIPS_KEY + alert[|BREAKER|..])
    else if Prefixed(REJECTED, alert) then Some(REJECTED_KEY + alert[|REJECTED|..])
    else None
  }

  predicate BreakerOpen(st: Status, alert: string) {
    Prefixed(BREAKER, alert) && Get(st.breakers, alert[|BREAKER|..]) == Some(true)
  }

  /** An event alert the status has something to say about. */
  predicate Named(st: Status, alert: string) {
    alert == "restart" || (KeyOf(alert).Some? && CountOf(st, KeyOf(alert).value).Some?)
  }

  predicate Restarted(prev: State, st: Status) {
    prev.startedAt.Some? && prev.startedAt.value != st.startedAt
  }

  /** The count "new" is measured from. */
  function Base(prev: State, st: Status, key: string, current: int): int {
    if prev.startedAt.None? then current
    else if Restarted(prev, st) then 0
    else if key in prev.counters then prev.counters[key]
    else current
  }

  /** How many are new, of a counter the status names. */
  function NewOf(prev: State, st: Status, key: string): int {
    match CountOf(st, key)
    case Some(current) => current - Base(prev, st, key, current)
    case None => 0
  }

  predicate Rose(prev: State, st: Status, alert: string) {
    if alert == "restart" then Restarted(prev, st)
    else KeyOf(alert).Some? && (BreakerOpen(st, alert) || NewOf(prev, st, KeyOf(alert).value) > 0)
  }

  /** When an event alert was last seen to rise, as the next state keeps it. */
  function RiseAfter(prev: State, st: Status, now: Time, alert: string): Option<Time> {
    if !Named(st, alert) then None
    else if Rose(prev, st, alert) then Some(now)
    else if alert in prev.rises && now - prev.rises[alert] < WATCH_HOLD then Some(prev.rises[alert])
    else None
  }

  predicate AboveBound(st: Status) {
    st.lagBound > 0 && st.maxBacklog > st.lagBound
  }

  /** When the backlog was first above its bound, as the next state keeps it. */
  function LagSince(prev: State, st: Status, now: Time): Option<Time> {
    if !AboveBound(st) then None
    else if !Restarted(prev, st) && "backlog-lag" in prev.since then Some(prev.since["backlog-lag"])
    else Some(now)
  }

  predicate OverBudget(a: Account, alert: string) {
    && a.cap.Some? && a.cap.value > 0.0
    && ((alert == "budget-high:" + a.kind && (a.spent + a.held) / a.cap.value > 0.80)
        || (alert == "budget-held:" + a.kind && a.held / a.cap.value > 0.02))
  }

  predicate TooPartial(st: Status) {
    st.searches >= PARTIAL_SEARCHES && st.partialSearches * 100 > st.searches * PARTIAL_PERCENT
  }

  /** The alerts about how things stand, not about something that happened. */
  predicate Stands(prev: State, st: Status, now: Time, alert: string) {
    || (alert == "partial-search" && TooPartial(st))
    || (exists i :: 0 <= i < |st.budgets| && OverBudget(st.budgets[i], alert))
    || (alert == "backlog-age" && st.oldestQueued > BACKLOG_AGE)
    || (alert == "backlog-lag" && LagSince(prev, st, now).Some? && now - LagSince(prev, st, now).value >= LAG_FOR)
  }

  predicate Probed(obs: Observation, alert: string) {
    (alert == "ready" && (obs.readyBad || obs.status.None?)) || (alert == "health" && obs.healthBad)
  }

  /** Whether an alert fires in a run. */
  predicate Fires(obs: Observation, prev: State, now: Time, alert: string) {
    || Probed(obs, alert)
    || (obs.status.Some? && RiseAfter(prev, obs.status.value, now, alert).Some?)
    || (obs.status.Some? && Stands(prev, obs.status.value, now, alert))
  }

  /** The alerts an unreadable status leaves as they were. */
  predicate Frozen(obs: Observation, prev: State, alert: string) {
    obs.status.None? && alert in prev.firing && alert != "ready" && alert != "health"
  }

  /** evaluate's results: the state to save (but for its alerts), the alerts that fire, the frozen ones. */
  ghost predicate Evaluated(obs: Observation, prev: State, now: Time, next: State, firing: set<string>,
                            frozen: set<string>) {
    && (forall a :: a in firing <==> Fires(obs, prev, now, a))
    && (forall a :: a in frozen <==> Frozen(obs, prev, a))
    && match obs.status
       case None =>
         && next.startedAt == prev.startedAt && next.counters == prev.counters
         && next.rises == prev.rises && next.since == prev.since
       case Some(st) =>
         && next.startedAt == Some(st.startedAt)
         && (forall k :: Get(next.counters, k) == CountOf(st, k))
         && (forall a :: Get(next.rises, a) == RiseAfter(prev, st, now, a))
         && (forall k :: Get(next.since, k) == if k == "backlog-lag" then LagSince(prev, st, now) else None)
  }

  // ---- the evaluation ----

  class Evaluation {
    const now: Time
    const prev: State
    var next: State
    var isFirst: bool
    var restarted: bool
    var since: map<string, Time>
    var firing: set<string>

    constructor (now: Time, prev: State)
      ensures this.now == now && this.prev == prev && firing == {} && since == prev.since
      ensures next == State(prev.startedAt, prev.counters, map[], prev.since, map[])
    {
      this.now, this.prev := now, prev;
      next := State(prev.startedAt, prev.counters, map[], prev.since, map[]);
      isFirst, restarted, since, firing := false, false, prev.since, {};
    }

    /** What has been filled in once the event alerts `alerts` and the counters `keys` are done. */
    ghost predicate Filled(st: Status, probes: set<string>, alerts: set<string>, keys: set<string>)
      reads this
    {
      && isFirst == prev.startedAt.None? && restarted == Restarted(prev, st)
      && next.startedAt == Some(st.startedAt) && next.since == map[] && next.firing == map[]
      && since == (if restarted then map[] else prev.since)
      && (forall a :: Get(next.rises, a) == if a in alerts then RiseAfter(prev, st, now, a) else None)
      && (forall a :: a in firing <==> a in probes || (a in alerts && RiseAfter(prev, st, now, a).Some?))
      && (forall k :: Get(next.counters, k) == if k in keys then CountOf(st, k) else None)
    }

    function BaseOf(key: string, current: int): int
      reads this
    {
      if isFirst then current
      else if restarted then 0
      else if key in prev.counters then prev.counters[key]
      else current
    }

    method Event(alert: string, rose: bool, ghost st: Status, ghost probes: set<string>, ghost alerts: set<string>,
                 ghost keys: set<string>)
      requires Filled(st, probes, alerts, keys) && alert !in alerts && Named(st, alert) && rose == Rose(prev, st, alert)
      modifies this
      ensures Filled(st, probes, alerts + {alert}, keys)
    {
      if rose {
        next := next.(rises := next.rises[alert := now]);
        firing := firing + {alert};
      } else if alert in prev.rises && now - prev.rises[alert] < WATCH_HOLD {
        next := next.(rises := next.rises[alert := prev.rises[alert]]);
        firing := firing + {alert};
      }
    }

    method Counter(alert: string, key: string, current: int, ghost st: Status, ghost probes: set<string>,
                   ghost alerts: set<string>, ghost keys: set<string>)
      requires Filled(st, probes, alerts, keys) && alert !in alerts && key !in keys
      requires alert != "restart" && KeyOf(alert) == Some(key) && CountOf(st, key) == Some(current)
      requires !BreakerOpen(st, alert)
      modifies this
      ensures Filled(st, probes, alerts + {alert}, keys + {key})
    {
      var base := BaseOf(key, current);
      next := next.(counters := next.counters[key := current]);
      Event(alert, current > base, st, probes, alerts, keys + {key});
    }

    /** One turn of breakers. */
    method OneBreaker(st: Status, kind: string, ghost probes: set<string>, ghost alerts: set<string>,
                      ghost keys: set<string>, ghost done: set<string>)
      requires Filled(st, probes, alerts + BreakerAlerts(done), keys + TripKeys(done)) && kind in Kinds(st)
      requires kind !in done
      requires BREAKER + kind !in alerts && TRIPS_KEY + kind !in keys
      modifies this
      ensures Filled(st, probes, alerts + BreakerAlerts(done + {kind}), keys + TripKeys(done + {kind}))
    {
      hide CountOf, KeyOf, BreakerOpen, RiseAfter, BreakerAlerts, TripKeys;
      BreakerNames(st, kind);
      FreshNames(alerts, keys, done, kind);
      OneMore(alerts, keys, done, kind);
      var trips := if kind in st.trips then st.trips[kind] else 0;
      var base := BaseOf(TRIPS_KEY + kind, trips);
      var open := kind in st.breakers && st.breakers[kind];
      next := next.(counters := next.counters[TRIPS_KEY + kind := trips]);
      Event(BREAKER + kind, open || trips > base, st, probes, alerts + BreakerAlerts(done),
            keys + TripKeys(done) + {TRIPS_KEY + kind});
    }

    method Breakers(st: Status, ghost probes: set<string>, ghost alerts: set<string>, ghost keys: set<string>)
      requires Filled(st, probes, alerts, keys)
      requires forall kind: string :: BREAKER + kind !in alerts && TRIPS_KEY + kind !in keys
      modifies this
      ensures Filled(st, probes, alerts + BreakerAlerts(Kinds(st)), keys + TripKeys(Kinds(st)))
    {
      hide Filled;
      var kinds := st.breakers.Keys + st.trips.Keys;
      ghost var done: set<string> := {};
      assert alerts + BreakerAlerts({}) == alerts && keys + TripKeys({}) == keys;
      while kinds != {}
        invariant kinds !! done && kinds + done == Kinds(st)
        invariant Filled(st, probes, alerts + BreakerAlerts(done), keys + TripKeys(done))
        decreases kinds
      {
        var kind :| kind in kinds;
        OneBreaker(st, kind, probes, alerts, keys, done);
        kinds, done := kinds - {kind}, done + {kind};
      }
      assert done == Kinds(st);
    }

    method Rejected(st: Status, ghost probes: set<string>, ghost alerts: set<string>, ghost keys: set<string>)
      requires Filled(st, probes, alerts, keys)
      requires forall kind: string :: REJECTED + kind !in alerts && REJECTED_KEY + kind !in keys
      modifies this
      ensures Filled(st, probes, alerts + RejectedAlerts(st.rejected.Keys), keys + RejectedKeys(st.rejected.Keys))
    {
      var kinds := st.rejected.Keys;
      ghost var done: set<string> := {};
      assert alerts + RejectedAlerts({}) == alerts && keys + RejectedKeys({}) == keys;
      while kinds != {}
        invariant kinds !! done && kinds + done == st.rejected.Keys
        invariant Filled(st, probes, alerts + RejectedAlerts(done), keys + RejectedKeys(done))
        decreases kinds
      {
        var kind :| kind in kinds;
        RejectedNames(st, kind);
        FreshRejected(alerts, keys, done, kind);
        Counter(REJECTED + kind, REJECTED_KEY + kind, st.rejected[kind], st, probes,
                alerts + RejectedAlerts(done), keys + RejectedKeys(done));
        OneMoreRejected(alerts, keys, done, kind);
        kinds, done := kinds - {kind}, done + {kind};
      }
      assert done == st.rejected.Keys;
    }

    /** The alerts every status names. */
    method Plain(st: Status, ghost probes: set<string>)
      requires Filled(st, probes, {}, {})
      modifies this
      ensures Filled(st, probes, PLAIN_ALERTS, PLAIN_KEYS)
    {
      hide Filled, KeyOf, CountOf, BreakerOpen, Prefixed, NewOf, RiseAfter;
      CounterNames(st);
      Event("restart", RestartedNow(st, probes), st, probes, {}, {});
      Counter("degraded-search", "degraded", st.degraded, st, probes, {} + {"restart"}, {});
      Counter("consolidation-dropped", "dropped", st.dropped, st, probes,
              {} + {"restart"} + {"degraded-search"}, {} + {"degraded"});
      Counter("link-fallback", "linkFallbacks", st.linkFallbacks, st, probes,
              {} + {"restart"} + {"degraded-search"} + {"consolidation-dropped"}, {} + {"degraded"} + {"dropped"});
      Counter("add-outran", "addOutran", st.addOutran, st, probes,
              {} + {"restart"} + {"degraded-search"} + {"consolidation-dropped"} + {"link-fallback"},
              {} + {"degraded"} + {"dropped"} + {"linkFallbacks"});
      assert PLAIN_ALERTS
          == {} + {"restart"} + {"degraded-search"} + {"consolidation-dropped"} + {"link-fallback"} + {"add-outran"};
      assert PLAIN_KEYS == {} + {"degraded"} + {"dropped"} + {"linkFallbacks"} + {"addOutran"};
    }

    function RestartedNow(st: Status, ghost probes: set<string>): (r: bool)
      requires Filled(st, probes, {}, {})
      reads this
      ensures r == Restarted(prev, st)
    {
      restarted
    }

    /** The event alerts and the counters, all of them. */
    method Events(st: Status, ghost probes: set<string>)
      requires next == State(prev.startedAt, prev.counters, map[], prev.since, map[]) && since == prev.since
      requires firing == probes
      modifies this
      ensures Filled(st, probes, AllAlerts(st), AllKeys(st))
    {
      isFirst := prev.startedAt.None?;
      restarted := !isFirst && st.startedAt != prev.startedAt.value;
      next := next.(startedAt := Some(st.startedAt), counters := map[], since := map[]);
      if restarted {
        since := map[];
      }
      assert Filled(st, probes, {}, {});
      EventsFrom(st, probes);
    }

    method EventsFrom(st: Status, ghost probes: set<string>)
      requires Filled(st, probes, {}, {})
      modifies this
      ensures Filled(st, probes, AllAlerts(st), AllKeys(st))
    {
      hide Filled;
      Plain(st, probes);
      PlainNames();
      Breakers(st, probes, PLAIN_ALERTS, PLAIN_KEYS);
      NoRejected(st);
      Rejected(st, probes, PLAIN_ALERTS + BreakerAlerts(Kinds(st)), PLAIN_KEYS + TripKeys(Kinds(st)));
    }

    method Partial(st: Status)
      modifies this`firing
      ensures firing == old(firing) + if TooPartial(st) then {"partial-search"} else {}
    {
      if TooPartial(st) {
        firing := firing + {"partial-search"};
      }
    }

    method Budgets(accounts: seq<Account>)
      modifies this`firing
      ensures forall a :: a in firing <==>
                a in old(firing) || exists i :: 0 <= i < |accounts| && OverBudget(accounts[i], a)
    {
      var n := 0;
      while n < |accounts|
        invariant n <= |accounts|
        invariant forall a :: a in firing <==> a in old(firing) || exists i :: 0 <= i < n && OverBudget(accounts[i], a)
      {
        var a := accounts[n];
        ghost var before := firing;
        if a.cap.Some? && a.cap.value > 0.0 {
          if (a.spent + a.held) / a.cap.value > 0.80 {
            firing := firing + {"budget-high:" + a.kind};
          }
          if a.held / a.cap.value > 0.02 {
            firing := firing + {"budget-held:" + a.kind};
          }
        }
        assert forall x :: x in firing <==> x in before || OverBudget(accounts[n], x);
        n := n + 1;
      }
    }

    /** status: the rules that read the status. */
    method ApplyStatus(st: Status, ghost probes: set<string>)
      requires next == State(prev.startedAt, prev.counters, map[], prev.since, map[]) && since == prev.since
      requires firing == probes
      modifies this
      ensures next.startedAt == Some(st.startedAt) && next.firing == map[]
      ensures forall k :: Get(next.counters, k) == CountOf(st, k)
      ensures forall a :: Get(next.rises, a) == RiseAfter(prev, st, now, a)
      ensures forall k :: Get(next.since, k) == if k == "backlog-lag" then LagSince(prev, st, now) else None
      ensures forall a :: a in firing <==> a in probes || RiseAfter(prev, st, now, a).Some? || Stands(prev, st, now, a)
    {
      hide RiseAfter, CountOf, OverBudget, LagSince, AllAlerts, AllKeys, Named;
      Events(st, probes);
      AllNamed(st);
      assert forall a :: RiseAfter(prev, st, now, a).Some? ==> a in AllAlerts(st) by { RisesNamed(prev, st, now); }
      assert forall a :: Get(next.rises, a) == RiseAfter(prev, st, now, a);
      assert forall k :: Get(next.counters, k) == CountOf(st, k);
      ghost var events := firing;
      Partial(st);
      Budgets(st.budgets);
      Backlog(st);
    }

    method Backlog(st: Status)
      requires next.since == map[] && since == (if Restarted(prev, st) then map[] else prev.since)
      modifies this`firing, this`next
      ensures next == old(next).(since := if LagSince(prev, st, now).Some?
                then map["backlog-lag" := LagSince(prev, st, now).value] else map[])
      ensures forall a :: a in firing <==>
                || a in old(firing) || (a == "backlog-age" && st.oldestQueued > BACKLOG_AGE)
                || (a == "backlog-lag" && LagSince(prev, st, now).Some?
                    && now - LagSince(prev, st, now).value >= LAG_FOR)
    {
      if st.oldestQueued > BACKLOG_AGE {
        firing := firing + {"backlog-age"};
      }
      if st.lagBound <= 0 || st.maxBacklog <= st.lagBound {
        return;
      }
      var began := if "backlog-lag" in since then since["backlog-lag"] else now;
      next := next.(since := next.since["backlog-lag" := began]);
      if now - began >= LAG_FOR {
        firing := firing + {"backlog-lag"};
      }
    }
  }

  /** evaluate. */
  method Evaluate(obs: Observation, prev: State, now: Time)
    returns (next: State, firing: set<string>, frozen: set<string>)
    ensures Evaluated(obs, prev, now, next, firing, frozen) && next.firing == map[]
  {
    hide RiseAfter, Stands, CountOf, LagSince;
    var e := new Evaluation(now, prev);
    if obs.readyBad || obs.status.None? {
      e.firing := e.firing + {"ready"};
    }
    if obs.healthBad {
      e.firing := e.firing + {"health"};
    }
    ghost var probes := e.firing;
    assert forall a :: a in probes <==> Probed(obs, a);
    match obs.status {
      case None =>
        frozen := set name | name in prev.firing && name != "ready" && name != "health";
        return e.next.(rises := prev.rises), e.firing, frozen;
      case Some(st) =>
        e.ApplyStatus(st, probes);
        return e.next, e.firing, {};
    }
  }

  // ---- the names a status gives ----

  ghost const PLAIN_ALERTS: set<string> := {"restart", "degraded-search", "consolidation-dropped", "link-fallback",
                                            "add-outran"}
  ghost const PLAIN_KEYS: set<string> := {"degraded", "dropped", "linkFallbacks", "addOutran"}

  ghost function Kinds(st: Status): set<string> {
    st.breakers.Keys + st.trips.Keys
  }

  ghost function BreakerAlerts(kinds: set<string>): set<string> {
    set k | k in kinds :: BREAKER + k
  }

  ghost function TripKeys(kinds: set<string>): set<string> {
    set k | k in kinds :: TRIPS_KEY + k
  }

  ghost function RejectedAlerts(kinds: set<string>): set<string> {
    set k | k in kinds :: REJECTED + k
  }

  ghost function RejectedKeys(kinds: set<string>): set<string> {
    set k | k in kinds :: REJECTED_KEY + k
  }

  ghost function AllAlerts(st: Status): set<string> {
    PLAIN_ALERTS + BreakerAlerts(Kinds(st)) + RejectedAlerts(st.rejected.Keys)
  }

  ghost function AllKeys(st: Status): set<string> {
    PLAIN_KEYS + TripKeys(Kinds(st)) + RejectedKeys(st.rejected.Keys)
  }

  lemma Rest(prefix: string, kind: string)
    ensures Prefixed(prefix, prefix + kind) && (prefix + kind)[|prefix|..] == kind
  {
  }

  lemma Whole(prefix: string, name: string)
    requires Prefixed(prefix, name)
    ensures prefix + name[|prefix|..] == name
  {
  }

  lemma BreakerNames(st: Status, kind: string)
    requires kind in Kinds(st)
    ensures KeyOf(BREAKER + kind) == Some(TRIPS_KEY + kind) && CountOf(st, TRIPS_KEY + kind) == Some(TripsOf(st, kind))
    ensures BreakerOpen(st, BREAKER + kind) <==> kind in st.breakers && st.breakers[kind]
    ensures BREAKER + kind != "restart" && Named(st, BREAKER + kind)
  {
    Rest(BREAKER, kind);
    Rest(TRIPS_KEY, kind);
    var alert, key := BREAKER + kind, TRIPS_KEY + kind;
    assert alert[0] == 'b' && key[0] == 't';
  }

  lemma RejectedNames(st: Status, kind: string)
    requires kind in st.rejected
    ensures KeyOf(REJECTED + kind) == Some(REJECTED_KEY + kind)
    ensures CountOf(st, REJECTED_KEY + kind) == Some(st.rejected[kind])
    ensures REJECTED + kind != "restart" && !BreakerOpen(st, REJECTED + kind)
  {
    Rest(REJECTED, kind);
    Rest(REJECTED_KEY, kind);
    var alert, key := REJECTED + kind, REJECTED_KEY + kind;
    assert alert[0] == 'p' && key[0] == 'r';
  }

  lemma RisesNamed(prev: State, st: Status, now: Time)
    ensures forall a :: RiseAfter(prev, st, now, a).Some? ==> Named(st, a)
  {
  }

  lemma NoBreaker(st: Status, a: string)
    requires |a| > 0 && a[0] != 'b'
    ensures !BreakerOpen(st, a)
  {
  }

  lemma CounterNames(st: Status)
    ensures !BreakerOpen(st, "degraded-search") && !BreakerOpen(st, "consolidation-dropped")
    ensures !BreakerOpen(st, "link-fallback") && !BreakerOpen(st, "add-outran")
    ensures CountOf(st, "degraded") == Some(st.degraded) && CountOf(st, "dropped") == Some(st.dropped)
    ensures CountOf(st, "linkFallbacks") == Some(st.linkFallbacks) && CountOf(st, "addOutran") == Some(st.addOutran)
    ensures KeyOf("degraded-search") == Some("degraded") && KeyOf("consolidation-dropped") == Some("dropped")
    ensures KeyOf("link-fallback") == Some("linkFallbacks") && KeyOf("add-outran") == Some("addOutran")
  {
    NoBreaker(st, "degraded-search");
    NoBreaker(st, "consolidation-dropped");
    NoBreaker(st, "link-fallback");
    NoBreaker(st, "add-outran");
  }

  lemma PlainNames()
    ensures forall kind: string :: BREAKER + kind !in PLAIN_ALERTS && TRIPS_KEY + kind !in PLAIN_KEYS
  {
    forall kind: string
      ensures BREAKER + kind !in PLAIN_ALERTS && TRIPS_KEY + kind !in PLAIN_KEYS
    {
      assert (BREAKER + kind)[0] == 'b' && (TRIPS_KEY + kind)[0] == 't';
    }
  }

  lemma NoRejected(st: Status)
    ensures forall kind: string ::
              && REJECTED + kind !in PLAIN_ALERTS + BreakerAlerts(Kinds(st))
              && REJECTED_KEY + kind !in PLAIN_KEYS + TripKeys(Kinds(st))
  {
    forall kind: string
      ensures REJECTED + kind !in PLAIN_ALERTS + BreakerAlerts(Kinds(st))
      ensures REJECTED_KEY + kind !in PLAIN_KEYS + TripKeys(Kinds(st))
    {
      assert (REJECTED + kind)[0] == 'p' && (REJECTED_KEY + kind)[0] == 'r';
      assert forall k: string :: (BREAKER + k)[0] == 'b' && (TRIPS_KEY + k)[0] == 't';
    }
  }

  lemma SameRest(prefix: string, k: string, l: string)
    requires prefix + k == prefix + l
    ensures k == l
  {
    Rest(prefix, k);
    Rest(prefix, l);
  }

  lemma FreshNames(alerts: set<string>, keys: set<string>, done: set<string>, kind: string)
    requires kind !in done && BREAKER + kind !in alerts && TRIPS_KEY + kind !in keys
    ensures BREAKER + kind !in alerts + BreakerAlerts(done) && TRIPS_KEY + kind !in keys + TripKeys(done)
  {
    forall k | k in done
      ensures BREAKER + k != BREAKER + kind && TRIPS_KEY + k != TRIPS_KEY + kind
    {
      if BREAKER + k == BREAKER + kind { SameRest(BREAKER, k, kind); }
      if TRIPS_KEY + k == TRIPS_KEY + kind { SameRest(TRIPS_KEY, k, kind); }
    }
  }

  lemma FreshRejected(alerts: set<string>, keys: set<string>, done: set<string>, kind: string)
    requires kind !in done && REJECTED + kind !in alerts && REJECTED_KEY + kind !in keys
    ensures REJECTED + kind !in alerts + RejectedAlerts(done) && REJECTED_KEY + kind !in keys + RejectedKeys(done)
  {
    forall k | k in done
      ensures REJECTED + k != REJECTED + kind && REJECTED_KEY + k != REJECTED_KEY + kind
    {
      if REJECTED + k == REJECTED + kind { SameRest(REJECTED, k, kind); }
      if REJECTED_KEY + k == REJECTED_KEY + kind { SameRest(REJECTED_KEY, k, kind); }
    }
  }

  lemma OneMore(alerts: set<string>, keys: set<string>, done: set<string>, kind: string)
    ensures alerts + BreakerAlerts(done) + {BREAKER + kind} == alerts + BreakerAlerts(done + {kind})
    ensures keys + TripKeys(done) + {TRIPS_KEY + kind} == keys + TripKeys(done + {kind})
  {
  }

  lemma OneMoreRejected(alerts: set<string>, keys: set<string>, done: set<string>, kind: string)
    ensures alerts + RejectedAlerts(done) + {REJECTED + kind} == alerts + RejectedAlerts(done + {kind})
    ensures keys + RejectedKeys(done) + {REJECTED_KEY + kind} == keys + RejectedKeys(done + {kind})
  {
  }

  /** The names gone through are all the names the status gives. */
  lemma AllNamed(st: Status)
    ensures forall a :: a in AllAlerts(st) <==> Named(st, a)
    ensures forall k :: k in AllKeys(st) <==> CountOf(st, k).Some?
  {
    forall a
      ensures a in AllAlerts(st) <==> Named(st, a)
    {
      AlertNamed(st, a);
    }
    forall k
      ensures k in AllKeys(st) <==> CountOf(st, k).Some?
    {
      KeyNamed(st, k);
    }
  }

  lemma KeyNamed(st: Status, k: string)
    ensures k in AllKeys(st) <==> CountOf(st, k).Some?
  {
    if k !in PLAIN_KEYS {
      if k in TripKeys(Kinds(st)) {
        var kind :| kind in Kinds(st) && k == TRIPS_KEY + kind;
        BreakerNames(st, kind);
      } else if k in RejectedKeys(st.rejected.Keys) {
        var kind :| kind in st.rejected && k == REJECTED_KEY + kind;
        RejectedNames(st, kind);
      } else {
        if Prefixed(TRIPS_KEY, k) { Whole(TRIPS_KEY, k); }
        if Prefixed(REJECTED_KEY, k) { Whole(REJECTED_KEY, k); }
      }
    }
  }

  lemma AlertNamed(st: Status, a: string)
    ensures a in AllAlerts(st) <==> Named(st, a)
  {
    if a !in PLAIN_ALERTS {
      if a in BreakerAlerts(Kinds(st)) {
        var kind :| kind in Kinds(st) && a == BREAKER + kind;
        BreakerNames(st, kind);
      } else if a in RejectedAlerts(st.rejected.Keys) {
        var kind :| kind in st.rejected && a == REJECTED + kind;
        RejectedNames(st, kind);
      } else if Prefixed(BREAKER, a) {
        Whole(BREAKER, a);
        NotTrips(st, a[|BREAKER|..]);
      } else if Prefixed(REJECTED, a) {
        Whole(REJECTED, a);
        NotRejected(st, a[|REJECTED|..]);
      }
    }
  }

  lemma NotTrips(st: Status, kind: string)
    requires kind !in Kinds(st)
    ensures CountOf(st, TRIPS_KEY + kind).None?
  {
    Rest(TRIPS_KEY, kind);
    assert (TRIPS_KEY + kind)[0] == 't';
  }

  lemma NotRejected(st: Status, kind: string)
    requires kind !in st.rejected
    ensures CountOf(st, REJECTED_KEY + kind).None?
  {
    Rest(REJECTED_KEY, kind);
    assert (REJECTED_KEY + kind)[0] == 'r';
  }
}
