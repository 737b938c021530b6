/**
 What a run of the watcher says and what it saves: planAlerts, deliver and
 settleAlerts, and the whole run as one transition on the saved state.
 */
module WatchAlerts {
  import opened Common
  import opened Orders
  import opened WatchRules

  /** A new alert (or one whose first message did not go out), one said again, one that cleared. */
  datatype Kind = New | Again | Resolved

  datatype Message = Message(alert: string, event: Kind)

  // ---- planAlerts ----

  /** What is to be said about an alert, from whether it fires, whether it is frozen, and its state. */
  function Says(now: Time, fires: bool, frozen: bool, old': Option<Alert>): Option<Kind> {
    if frozen then None
    else if fires then
      if old'.None? || old'.value.lastSent.None? then Some(New)
      else if now - old'.value.lastSent.value >= WATCH_REPEAT then Some(Again)
      else None
    else if old'.Some? then Some(Resolved) else None
  }

  /** An alert's state if nothing is delivered. */
  function Plans(now: Time, fires: bool, old': Option<Alert>): Option<Alert> {
    if fires && old'.None? then Some(Alert(now, None)) else old'
  }

  ghost function Alerts(messages: seq<Message>): seq<string> {
    seq(|messages|, i requires 0 <= i < |messages| => messages[i].alert)
  }

  /** The messages planned: what each alert has to say, in the order of the names. */
  ghost predicate SaidRight(now: Time, firing: set<string>, frozen: set<string>, prev: map<string, Alert>,
                            messages: seq<Message>, over: set<string>) {
    && Ascending(Alerts(messages))
    && (forall i :: 0 <= i < |messages| ==> messages[i].alert in over)
    && (forall i :: 0 <= i < |messages| ==>
        var a := messages[i].alert;
        Says(now, a in firing, a in frozen, Get(prev, a)) == Some(messages[i].event))
    && (forall a :: a in over && Says(now, a in firing, a in frozen, Get(prev, a)).Some? ==>
        exists i :: 0 <= i < |messages| && messages[i].alert == a)
  }

  ghost predicate PlannedRight(now: Time, firing: set<string>, prev: map<string, Alert>, next: map<string, Alert>,
                               over: set<string>) {
    forall a :: Get(next, a) == if a in over then Plans(now, a in firing, Get(prev, a)) else None
  }

  /** planAlerts; only alerts of the state are ever frozen. */
  method PlanAlerts(now: Time, firing: set<string>, frozen: set<string>, prev: map<string, Alert>)
    returns (next: map<string, Alert>, messages: seq<Message>)
    requires frozen <= prev.Keys
    ensures PlannedRight(now, firing, prev, next, firing + prev.Keys)
    ensures SaidRight(now, firing, frozen, prev, messages, firing + prev.Keys)
    ensures forall a :: a in frozen ==> a in next && next[a] == prev[a]
  {
    hide SaidRight;
    var names := SortedNames(firing + prev.Keys);
    next, messages := map[], [];
    SaysNothing(now, firing, frozen, prev);
    ghost var over: set<string> := {};
    var i := 0;
    while i < |names|
      invariant i <= |names| && over == set j | 0 <= j < i :: names[j]
      invariant PlannedRight(now, firing, prev, next, over)
      invariant SaidRight(now, firing, frozen, prev, messages, over)
    {
      var name := names[i];
      assert name in names;
      Beyond(names, i, over);
      ghost var said := messages;
      var isFiring, wasFiring := name in firing, name in prev;
      if name in frozen {
        next := next[name := prev[name]];
      } else if isFiring && !wasFiring {
        next := next[name := Alert(now, None)];
        messages := messages + [Message(name, New)];
      } else if isFiring {
        var alert := Alert(prev[name].since, prev[name].lastSent);
        next := next[name := alert];
        if alert.lastSent.None? {
          messages := messages + [Message(name, New)];
        } else if now - alert.lastSent.value >= WATCH_REPEAT {
          messages := messages + [Message(name, Again)];
        }
      } else {
        next := next[name := prev[name]];
        messages := messages + [Message(name, Resolved)];
      }
      SaysOne(now, firing, frozen, prev, said, messages, over, name);
      over := over + {name};
      i := i + 1;
    }
    assert over == firing + prev.Keys;
  }

  lemma SaysNothing(now: Time, firing: set<string>, frozen: set<string>, prev: map<string, Alert>)
    ensures SaidRight(now, firing, frozen, prev, [], {})
  {
  }

  lemma Beyond(names: seq<string>, i: nat, over: set<string>)
    requires Ascending(names) && i < |names| && over == set j | 0 <= j < i :: names[j]
    ensures names[i] !in over && forall a :: a in over ==> Less(a, names[i])
  {
    Irreflexive(names[i]);
  }

  lemma SaysOne(now: Time, firing: set<string>, frozen: set<string>, prev: map<string, Alert>,
                said: seq<Message>, messages: seq<Message>, over: set<string>, name: string)
    requires SaidRight(now, firing, frozen, prev, said, over)
    requires name !in over && forall a :: a in over ==> Less(a, name)
    requires match Says(now, name in firing, name in frozen, Get(prev, name))
             case None => messages == said
             case Some(kind) => messages == said + [Message(name, kind)]
    ensures SaidRight(now, firing, frozen, prev, messages, over + {name})
  {
    hide Says;
    var was, now' := Alerts(said), Alerts(messages);
    forall i, j | 0 <= i < j < |now'|
      ensures Less(now'[i], now'[j])
    {
      assert now'[i] == was[i];
      if j < |said| {
        assert now'[j] == was[j];
      } else {
        assert said[i].alert in over;
      }
    }
    forall a | a in over + {name} && Says(now, a in firing, a in frozen, Get(prev, a)).Some?
      ensures exists i :: 0 <= i < |messages| && messages[i].alert == a
    {
      if a == name {
        assert messages[|said|].alert == a;
      } else {
        var i :| 0 <= i < |said| && said[i].alert == a;
        assert messages[i].alert == a;
      }
    }
  }

  // ---- deliver ----

  /** How the webhook takes a post. */
  datatype Answer = Took | Refused | Unreachable

  /** deliver: outcome i says whether message i was delivered. */
  method Deliver(webhook: bool, answers: nat -> Answer, messages: seq<Message>) returns (outcomes: seq<bool>)
    ensures |outcomes| == |messages|
    ensures forall i :: 0 <= i < |messages| ==>
              (outcomes[i] <==> webhook && answers(i).Took? && forall j :: 0 <= j < i ==> !answers(j).Unreachable?)
  {
    outcomes := seq(|messages|, _ => false);
    if !webhook {
      return;
    }
    var i := 0;
    while i < |messages|
      invariant i <= |messages| && |outcomes| == |messages|
      invariant forall j :: 0 <= j < i ==> !answers(j).Unreachable?
      invariant forall j :: 0 <= j < i ==> (outcomes[j] <==> answers(j).Took?)
      invariant forall j :: i <= j < |messages| ==> !outcomes[j]
    {
      match answers(i) {
        case Took => outcomes := outcomes[i := true];
        case Refused =>
        case Unreachable => return;
      }
      i := i + 1;
    }
  }

  // ---- settleAlerts ----

  /** The message about an alert that was delivered, if one was. */
  ghost predicate Sent(messages: seq<Message>, outcomes: seq<bool>, alert: string, kind: Kind) {
    |outcomes| == |messages| && exists i :: 0 <= i < |messages| && outcomes[i] && messages[i] == Message(alert, kind)
  }

  ghost predicate SentAlert(messages: seq<Message>, outcomes: seq<bool>, alert: string) {
    Sent(messages, outcomes, alert, New) || Sent(messages, outcomes, alert, Again)
  }

  /** An alert once its message was delivered, or none was. */
  ghost function Settled(planned: Option<Alert>, messages: seq<Message>, outcomes: seq<bool>, alert: string,
                         now: Time): Option<Alert> {
    if Sent(messages, outcomes, alert, Resolved) then None
    else if SentAlert(messages, outcomes, alert) && planned.Some? then Some(planned.value.(lastSent := Some(now)))
    else planned
  }

  method SettleAlerts(alerts: map<string, Alert>, messages: seq<Message>, outcomes: seq<bool>, now: Time)
    returns (settled: map<string, Alert>)
    requires |outcomes| == |messages| && Ascending(Alerts(messages))
    requires forall i :: 0 <= i < |messages| ==> messages[i].alert in alerts
    ensures forall a :: Get(settled, a) == Settled(Get(alerts, a), messages, outcomes, a, now)
  {
    settled := alerts;
    var i := 0;
    while i < |messages|
      invariant i <= |messages|
      invariant forall a :: Get(settled, a) == Settled(Get(alerts, a), messages[..i], outcomes[..i], a, now)
    {
      var m := messages[i];
      OneAlert(messages, i);
      ghost var before := settled;
      NotYet(messages, outcomes, i, m.alert);
      assert Get(settled, m.alert) == Some(alerts[m.alert]);
      if outcomes[i] {
        if m.event == Resolved {
          settled := settled - {m.alert};
        } else {
          settled := settled[m.alert := settled[m.alert].(lastSent := Some(now))];
        }
      }
      forall a
        ensures Get(settled, a) == Settled(Get(alerts, a), messages[..i + 1], outcomes[..i + 1], a, now)
      {
        SettleOne(messages, outcomes, i, a);
        assert Get(before, a) == Settled(Get(alerts, a), messages[..i], outcomes[..i], a, now);
      }
      i := i + 1;
    }
    assert messages[..i] == messages && outcomes[..i] == outcomes;
  }

  /** No two messages are about one alert. */
  lemma OneAlert(messages: seq<Message>, i: nat)
    requires Ascending(Alerts(messages)) && i < |messages|
    ensures forall j :: 0 <= j < |messages| && j != i ==> messages[j].alert != messages[i].alert
  {
    Irreflexive(messages[i].alert);
    forall j | 0 <= j < |messages| && j != i
      ensures messages[j].alert != messages[i].alert
    {
      assert Alerts(messages)[i] == messages[i].alert && Alerts(messages)[j] == messages[j].alert;
    }
  }

  lemma NotYet(messages: seq<Message>, outcomes: seq<bool>, i: nat, a: string)
    requires |outcomes| == |messages| && i < |messages| && forall j :: 0 <= j < i ==> messages[j].alert != a
    ensures forall kind :: !Sent(messages[..i], outcomes[..i], a, kind)
  {
  }

  lemma SettleOne(messages: seq<Message>, outcomes: seq<bool>, i: nat, a: string)
    requires |outcomes| == |messages| && i < |messages|
    ensures forall kind :: Sent(messages[..i + 1], outcomes[..i + 1], a, kind) <==>
              Sent(messages[..i], outcomes[..i], a, kind) || (outcomes[i] && messages[i] == Message(a, kind))
  {
    var ms, os := messages[..i + 1], outcomes[..i + 1];
    forall kind
      ensures Sent(ms, os, a, kind) <==>
                Sent(messages[..i], outcomes[..i], a, kind) || (outcomes[i] && messages[i] == Message(a, kind))
    {
      if Sent(messages[..i], outcomes[..i], a, kind) {
        var j :| 0 <= j < i && outcomes[..i][j] && messages[..i][j] == Message(a, kind);
        assert os[j] && ms[j] == Message(a, kind);
      }
      if outcomes[i] && messages[i] == Message(a, kind) {
        assert os[i] && ms[i] == Message(a, kind);
      }
      if Sent(ms, os, a, kind) {
        var j :| 0 <= j < i + 1 && os[j] && ms[j] == Message(a, kind);
        if j < i {
          assert outcomes[..i][j] && messages[..i][j] == Message(a, kind);
        }
      }
    }
  }

  // ---- a run ----

  /** What a run read, said and got delivered, and whether its state was saved. */
  datatype Run = Run(obs: Observation, now: Time, messages: seq<Message>, outcomes: seq<bool>, saved: bool)

  function SaysIn(prev: State, r: Run, alert: string): Option<Kind> {
    Says(r.now, Fires(r.obs, prev, r.now, alert), Frozen(r.obs, prev, alert), Get(prev.firing, alert))
  }

  ghost function AlertAfter(prev: State, r: Run, alert: string): Option<Alert> {
    Settled(Plans(r.now, Fires(r.obs, prev, r.now, alert), Get(prev.firing, alert)), r.messages, r.outcomes, alert,
            r.now)
  }

  ghost predicate NextCounts(prev: State, r: Run, next: State) {
    match r.obs.status
    case None =>
      && next.startedAt == prev.startedAt && next.counters == prev.counters
      && next.rises == prev.rises && next.since == prev.since
    case Some(st) =>
      && next.startedAt == Some(st.startedAt)
      && (forall k :: Get(next.counters, k) == CountOf(st, k))
      && (forall a :: Get(next.rises, a) == RiseAfter(prev, st, r.now, a))
      && (forall k :: Get(next.since, k) == if k == "backlog-lag" then LagSince(prev, st, r.now) else None)
  }

  ghost predicate Told(prev: State, r: Run) {
    && |r.outcomes| == |r.messages| && Ascending(Alerts(r.messages))
    && (forall i :: 0 <= i < |r.messages| ==> SaysIn(prev, r, r.messages[i].alert) == Some(r.messages[i].event))
    && (forall a :: SaysIn(prev, r, a).Some? ==> exists i :: 0 <= i < |r.messages| && r.messages[i].alert == a)
  }

  /** One run: what it says is what each alert has to say, and a state that is saved is the next run's. */
  ghost predicate Ran(prev: State, r: Run, next: State) {
    && Told(prev, r)
    && (r.saved ==> NextCounts(prev, r, next) && forall a :: Get(next.firing, a) == AlertAfter(prev, r, a))
    && (!r.saved ==> next == prev)
  }

  /** run, from the state loaded to the state the next run loads. */
  method RunOnce(prev: State, obs: Observation, now: Time, webhook: bool, answers: nat -> Answer, saved: bool)
    returns (r: Run, next: State)
    ensures Ran(prev, r, next) && r.obs == obs && r.now == now && r.saved == saved
  {
    hide Fires, Frozen, RiseAfter, CountOf, LagSince, Plans, Says, Settled;
    var evaluated, firing, frozen := Evaluate(obs, prev, now);
    FrozenKept(obs, prev);
    var planned, messages := PlanAlerts(now, firing, frozen, prev.firing);
    var outcomes := Deliver(webhook, answers, messages);
    assert forall i :: 0 <= i < |messages| ==> messages[i].alert in planned by {
      PlannedSaid(now, firing, frozen, prev.firing, planned, messages);
    }
    var settled := SettleAlerts(planned, messages, outcomes, now);
    r := Run(obs, now, messages, outcomes, saved);
    next := if saved then evaluated.(firing := settled) else prev;
    RunTold(prev, r, firing, frozen);
    RunSettled(prev, r, firing, planned, settled);
  }

  lemma FrozenKept(obs: Observation, prev: State)
    ensures forall a :: Frozen(obs, prev, a) ==> a in prev.firing
  {
  }

  lemma PlannedSaid(now: Time, firing: set<string>, frozen: set<string>, prev: map<string, Alert>,
                    planned: map<string, Alert>, messages: seq<Message>)
    requires PlannedRight(now, firing, prev, planned, firing + prev.Keys)
    requires SaidRight(now, firing, frozen, prev, messages, firing + prev.Keys)
    ensures forall i :: 0 <= i < |messages| ==> messages[i].alert in planned
  {
    forall i | 0 <= i < |messages|
      ensures messages[i].alert in planned
    {
      var a := messages[i].alert;
      assert Get(planned, a) == Plans(now, a in firing, Get(prev, a));
    }
  }

  lemma RunTold(prev: State, r: Run, firing: set<string>, frozen: set<string>)
    requires forall a :: a in firing <==> Fires(r.obs, prev, r.now, a)
    requires forall a :: a in frozen <==> Frozen(r.obs, prev, a)
    requires SaidRight(r.now, firing, frozen, prev.firing, r.messages, firing + prev.firing.Keys)
    requires |r.outcomes| == |r.messages|
    ensures Told(prev, r)
  {
    hide Fires, Frozen;
  }

  lemma RunSettled(prev: State, r: Run, firing: set<string>, planned: map<string, Alert>, settled: map<string, Alert>)
    requires forall a :: a in firing <==> Fires(r.obs, prev, r.now, a)
    requires PlannedRight(r.now, firing, prev.firing, planned, firing + prev.firing.Keys)
    requires forall a :: Get(settled, a) == Settled(Get(planned, a), r.messages, r.outcomes, a, r.now)
    ensures forall a :: Get(settled, a) == AlertAfter(prev, r, a)
  {
    hide Fires, Settled;
  }
}
