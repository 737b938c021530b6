/**
 The backlog estimate against the characters really pending: the scheduler
 with the protocol its callers follow (internal/aml/server.go). An Add writes,
 measures, notifies and records under its user's write lock; a job folds and
 measures while it runs; a Search's flush folds whenever it likes.
 */
module SchedulerEstimate {
  import opened Common
  import opened SchedulerState
  import opened SchedulerInvariant
  import opened SchedulerSystem
  import opened SchedulerRuns
  import opened SchedulerViews
  import opened SchedulerEffects

  /**
   An Add that holds its user's write lock: what it wrote and has not notified
   (unsaid), and from the measure on, the measure (-1: none).
   */
  datatype Adding =
    | Writing(unsaid: int)
    | Reading(unsaid: int)
    | Telling(unsaid: int, measure: int)
    | Recording(measure: int)

  /**
   pending: the characters a measure taken now would find; unnotified: those
   written that no notification has told of; measures: what the job in each
   worker's hands has measured; sound and dropped: the users measured since
   they last lost a notification, and those that ever lost one.
   */
  datatype World = World(
    g: System, pending: map<Key, int>, unnotified: map<Key, int>, adds: map<Key, Adding>,
    measures: map<nat, int>, sound: set<Key>, dropped: set<Key>)

  datatype Act =
    | Other(e: Event)
    | Locks(key: Key)
    | Writes(key: Key, chars: int)
    | Fails(key: Key)
    | Asks(key: Key)
    | Reads(key: Key, ok: bool)
    | Tells(key: Key, chars: int, of: int, now: Time)
    | Records(key: Key)
    | Folds(key: Key, chars: int)
    | JobMeasures(w: nat, ok: bool)
    | JobEnds(w: nat, outcome: Outcome, now: Time, jitter: real)

  function Val(m: map<Key, int>, k: Key): int {
    if k in m then m[k] else 0
  }

  function Unsaid(x: World, k: Key): int {
    if k !in x.adds || x.adds[k].Recording? then 0 else x.adds[k].unsaid
  }

  function JobMeasure(x: World, w: nat): int {
    if w in x.measures then x.measures[w] else -1
  }

  /** The key of the user whose job worker w runs. */
  ghost function JobKey(g: System, w: nat): Key
    requires WellFormed(g) && w < |g.workers| && g.workers[w].InJob?
  {
    g.s.entries[g.workers[w].entry].key
  }

  /** The event a step of the protocol is, if it is one of the scheduler's. */
  ghost function EventOf(x: World, a: Act): Option<Event> {
    match a
    case Other(e) => Some(e)
    case Tells(key, chars, of, now) => Some(Notifies(key, chars, now))
    case Records(key) =>
      if key in x.adds && x.adds[key].Recording? && x.adds[key].measure >= 0
      then Some(Measures(key, x.adds[key].measure)) else None
    case JobEnds(w, outcome, now, jitter) => Some(Finishes(w, JobMeasure(x, w), outcome, now, jitter))
    case _ => None
  }

  /** Who notifies characters, records measures and ends jobs does so by the protocol. */
  ghost predicate May(x: World, a: Act) {
    && (EventOf(x, a).Some? ==> Enabled(x.g, EventOf(x, a).value))
    && match a
       case Other(e) => !e.Measures? && !e.Finishes? && (e.Notifies? ==> e.chars == 0)
       case Locks(key) => key !in x.adds
       case Writes(key, chars) => key in x.adds && x.adds[key].Writing? && chars >= 0
       case Fails(key) => key in x.adds && x.adds[key].Writing?
       case Asks(key) => key in x.adds && x.adds[key].Writing?
       case Reads(key, ok) => key in x.adds && x.adds[key].Reading?
       case Tells(key, chars, of, now) =>
         key in x.adds && x.adds[key].Telling? && x.adds[key].unsaid <= of <= chars && of <= Val(x.unnotified, key)
       case Records(key) => key in x.adds && x.adds[key].Recording?
       case Folds(key, chars) => 0 <= chars <= Val(x.pending, key)
       case JobMeasures(w, ok) => w < |x.g.workers| && x.g.workers[w].InJob?
       case JobEnds(w, outcome, now, jitter) => true
  }

  ghost function Do(x: World, a: Act): World
    requires WellFormed(x.g) && May(x, a)
  {
    var x1 := match EventOf(x, a) case Some(e) => x.(g := Apply(x.g, e)) case None => x;
    match a
    case Other(e) => if e.Looks? then x1.(measures := x.measures - {e.w}) else x1
    case Locks(key) => x1.(adds := x.adds[key := Writing(0)])
    case Writes(key, chars) =>
      x1.(adds := x.adds[key := Writing(x.adds[key].unsaid + chars)],
          pending := x.pending[key := Val(x.pending, key) + chars],
          unnotified := x.unnotified[key := Val(x.unnotified, key) + chars])
    case Fails(key) => x1.(adds := x.adds - {key})
    case Asks(key) =>
      var unsaid := x.adds[key].unsaid;
      x1.(adds := x.adds[key := if key in x.g.s.measured then Telling(unsaid, -1) else Reading(unsaid)])
    case Reads(key, ok) =>
      x1.(adds := x.adds[key := Telling(x.adds[key].unsaid, if ok then Val(x.pending, key) else -1)])
    case Tells(key, chars, of, now) =>
      var lost := !Accepts(x.g.s, key) && of > 0;
      x1.(adds := x.adds[key := Recording(x.adds[key].measure)],
          unnotified := x.unnotified[key := Val(x.unnotified, key) - of],
          sound := if lost then x.sound - {key} else x.sound,
          dropped := if lost then x.dropped + {key} else x.dropped)
    case Records(key) =>
      x1.(adds := x.adds - {key},
          sound := if x.adds[key].measure >= 0 && TakesMeasure(x.g.s, key) then x.sound + {key} else x.sound)
    case Folds(key, chars) => x1.(pending := x.pending[key := Val(x.pending, key) - chars])
    case JobMeasures(w, ok) =>
      x1.(measures := x.measures[w := if ok then Val(x.pending, JobKey(x.g, w)) else -1])
    case JobEnds(w, outcome, now, jitter) =>
      x1.(measures := x.measures - {w},
          sound := if JobMeasure(x, w) >= 0 then x.sound + {JobKey(x.g, w)} else x.sound)
  }

  ghost predicate Moves(x: World, a: Act, x': World) {
    WellFormed(x.g) && May(x, a) && x' == Do(x, a)
  }

  /** A start: a new scheduler, stores with whatever they have pending, and nobody at work. */
  ghost predicate Begins(x: World) {
    && Start0(x.g) && x == World(x.g, x.pending, map[], map[], map[], {}, {})
    && forall k :: k in x.pending ==> x.pending[k] >= 0
  }

  ghost predicate IsHistory(worlds: seq<World>, acts: seq<Act>) {
    && |worlds| == |acts| + 1
    && forall i :: 0 <= i < |acts| ==> Moves(worlds[i], acts[i], worlds[i + 1])
  }

  // ---- the invariant ----

  function Estimate(s: Sched, k: Key): int
    requires k in s.users ==> s.users[k] < |s.entries|
  {
    ViewOf(s, k).backlog
  }

  /** One user's part: the bound; an Add's measure, while it holds the lock, is not below what is pending. */
  ghost predicate Bound(x: World, k: Key)
    requires Known(x.g.s)
  {
    && 0 <= Val(x.pending, k)
    && 0 <= Unsaid(x, k) <= Val(x.unnotified, k)
    && (k in x.sound ==> Val(x.pending, k) <= Estimate(x.g.s, k) + Val(x.unnotified, k))
    && (k in x.adds && (x.adds[k].Telling? || x.adds[k].Recording?) && x.adds[k].measure >= 0 ==>
        Val(x.pending, k) <= x.adds[k].measure)
    && (k in x.g.s.measured ==> k in x.sound || k in x.dropped)
  }

  /** A running job's part: what it measured, and what was added since it started, bound what is pending. */
  ghost predicate JobBound(x: World, w: nat)
    requires WellFormed(x.g) && Known(x.g.s) && w < |x.g.workers| && x.g.workers[w].InJob?
  {
    JobMeasure(x, w) >= 0 ==>
      Val(x.pending, JobKey(x.g, w))
        <= JobMeasure(x, w) + ViewOf(x.g.s, JobKey(x.g, w)).added + Val(x.unnotified, JobKey(x.g, w))
  }

  ghost predicate WorldInv(x: World) {
    && SysInv(x.g) && WellFormed(x.g) && Known(x.g.s)
    && (forall k :: Bound(x, k))
    && (forall w :: 0 <= w < |x.g.workers| && x.g.workers[w].InJob? ==> JobBound(x, w))
  }

  lemma WorldParts(x: World)
    requires WorldInv(x)
    ensures SysInv(x.g) && WellFormed(x.g) && Known(x.g.s)
  {
    hide SysInv, WellFormed, Known, Bound, JobBound;
  }

  lemma BoundAt(x: World, k: Key)
    requires WorldInv(x)
    ensures Known(x.g.s) && Bound(x, k)
  {
    hide SysInv, WellFormed, Known, Bound, JobBound;
  }

  lemma JobBoundAt(x: World, w: nat)
    requires WorldInv(x) && w < |x.g.workers| && x.g.workers[w].InJob?
    ensures WellFormed(x.g) && Known(x.g.s) && JobBound(x, w)
  {
    hide SysInv, WellFormed, Known, Bound, JobBound;
  }

  // ---- what the other events leave ----

  /** A step that adds no characters and measures nothing: the estimate stays, and what was added to a running job. */
  predicate Mild(v: View, v': View) {
    v'.backlog == v.backlog && (v.phase.Running? ==> v'.added == v.added)
  }

  ghost predicate MildAll(s: Sched, t: Sched)
    requires Known(s) && Known(t)
  {
    forall k :: Mild(ViewOf(s, k), ViewOf(t, k))
  }

  lemma OnlyMild(s: Sched, t: Sched, key: Key, v: View)
    requires Known(s) && Known(t) && OnlyView(s, t, key, v) && Mild(ViewOf(s, key), v)
    ensures MildAll(s, t)
  {
  }

  lemma SameMild(s: Sched, t: Sched)
    requires Known(s) && Known(t) && SameViews(s, t)
    ensures MildAll(s, t)
  {
  }

  lemma WakesMild(s: Sched, i: nat, limit: int, now: Time)
    requires Inv(s) && Known(s) && i < |s.entries| && s.entries[i].waiters > 0
    ensures Known(WaitLoop(s, i, limit, now).0) && MildAll(s, WaitLoop(s, i, limit, now).0)
    ensures Known(LeaveWait(s, i)) && MildAll(s, LeaveWait(s, i))
  {
    hide Inv, WaitLoop, LeaveWait, OnlyView, SameViews, MildAll;
    LeaveWaitView(s, i);
    SameMild(s, LeaveWait(s, i));
    WaitLoopView(s, i, limit, now);
    var t := WaitLoop(s, i, limit, now).0;
    if WaitQueues(s, i, limit) {
      OnlyMild(s, t, s.entries[i].key, ToldView(ViewOf(s, s.entries[i].key), 0, now));
    } else {
      SameMild(s, t);
    }
  }

  lemma OtherViews(g: System, e: Event, g': System)
    requires SysInv(g) && Step(g, e, g') && Known(g.s)
    requires !e.Measures? && !e.Finishes? && (e.Notifies? ==> e.chars == 0)
    ensures Known(g'.s) && MildAll(g.s, g'.s)
  {
    hide SysInv, Inv, Known, Notify, WaitLoop, LeaveWait, Hold, Release, TakeNext, OnlyView, SameViews, MildAll;
    hide WaitersOk, HoldersOk, JobsOk, ChannelBounds, ViewOf, Accepts, EnterWait;
    SysParts(g);
    SysThreads(g);
    match e {
      case Notifies(key, chars, now) => NotifiesMild(g.s, key, now);
      case Waits(w, key, limit, now) =>
        if key in g.s.users {
          WaitsMild(g.s, key, limit, now);
        } else {
          SameTables(g.s, g'.s);
          SameMild(g.s, g'.s);
        }
      case WaiterWakes(w, gone) =>
        WaiterCount(g, w);
        WakesMild(g.s, g.waiters[w].entry, g.waiters[w].limit, g.waiters[w].now);
      case Holds(h, key) =>
        HoldView(g.s, key);
        SameMild(g.s, g'.s);
      case Releases(h) =>
        HeldCount(g, h);
        ReleaseView(g.s, g.holders[h]);
        SameMild(g.s, g'.s);
      case Looks(w) => LooksMild(g.s, g.workers[w].now);
      case _ =>
        SameTables(g.s, g'.s);
        SameMild(g.s, g'.s);
    }
  }

  lemma NotifiesMild(s: Sched, key: Key, now: Time)
    requires Known(s)
    ensures Known(Notify(s, key, 0, now)) && MildAll(s, Notify(s, key, 0, now))
  {
    hide Notify, OnlyView, SameViews, MildAll, Accepts;
    NotifyView(s, key, 0, now);
    if !Accepts(s, key) {
      SameTables(s, Notify(s, key, 0, now));
      SameMild(s, Notify(s, key, 0, now));
    } else {
      OnlyMild(s, Notify(s, key, 0, now), key, ToldView(ViewOf(s, key), 0, now));
    }
  }

  lemma WaitsMild(s: Sched, key: Key, limit: int, now: Time)
    requires Inv(s) && Known(s) && key in s.users
    ensures var i := s.users[key];
            var t := WaitLoop(EnterWait(s, i), i, limit, now).0;
            Known(t) && MildAll(s, t)
  {
    hide Inv, WaitLoop;
    var i := s.users[key];
    EnterWaitView(s, key);
    EnterWaitInv(s, key);
    EntryInv(s, i);
    var s1 := EnterWait(s, i);
    WakesMild(s1, i, limit, now);
    var t := WaitLoop(s1, i, limit, now).0;
    forall k
      ensures Mild(ViewOf(s, k), ViewOf(t, k))
    {
      assert ViewOf(s1, k) == ViewOf(s, k);
    }
  }

  lemma LooksMild(s: Sched, now: Time)
    requires Inv(s) && Known(s)
    ensures Indexed(s) && Known(TakeNext(s, now).0) && MildAll(s, TakeNext(s, now).0)
  {
    hide Inv, TakeNext;
    TakeNextView(s, now);
  }

  // ---- the parts of a state the estimate does not depend on ----

  ghost predicate KeysStay(s: Sched, t: Sched) {
    |s.entries| <= |t.entries| && forall i :: 0 <= i < |s.entries| ==> t.entries[i].key == s.entries[i].key
  }

  lemma NotifyKeys(s: Sched, key: Key, chars: int, now: Time)
    requires key in s.users ==> s.users[key] < |s.entries|
    ensures KeysStay(s, Notify(s, key, chars, now)) && Notify(s, key, chars, now).measured == s.measured
  {
    hide Told;
    if !Full(s, key) {
      ToldKeys(Know(s, key), Know(s, key).users[key], chars, now);
    }
  }

  lemma ToldKeys(s: Sched, i: nat, chars: int, now: Time)
    requires i < |s.entries|
    ensures KeysStay(s, Told(s, i, chars, now)) && Told(s, i, chars, now).measured == s.measured
  {
    match s.entries[i].phase
    case Idle =>
    case Queued =>
    case Running =>
    case BackingOff =>
  }

  lemma WaitKeys(s: Sched, i: nat, limit: int, now: Time)
    requires i < |s.entries|
    ensures KeysStay(s, WaitLoop(s, i, limit, now).0) && WaitLoop(s, i, limit, now).0.measured == s.measured
    ensures KeysStay(s, LeaveWait(s, i)) && LeaveWait(s, i).measured == s.measured
  {
    hide LeaveWait;
    LeaveWaitKeys(s, i);
  }

  lemma LeaveWaitKeys(s: Sched, i: nat)
    requires i < |s.entries|
    ensures KeysStay(s, LeaveWait(s, i)) && LeaveWait(s, i).measured == s.measured
  {
  }

  lemma HoldKeys(s: Sched, key: Key)
    requires key in s.users ==> s.users[key] < |s.entries|
    ensures KeysStay(s, Hold(s, key)) && Hold(s, key).measured == s.measured
  {
  }

  lemma ReleaseKeys(s: Sched, i: nat)
    requires i < |s.entries|
    ensures KeysStay(s, Release(s, i)) && Release(s, i).measured == s.measured
  {
  }

  lemma TakeNextKeys(s: Sched, now: Time)
    requires Inv(s)
    ensures Indexed(s) && KeysStay(s, TakeNext(s, now).0) && TakeNext(s, now).0.measured == s.measured
  {
    hide Inv, RetryDue, FirstUnheld;
    InvIndexed(s);
    if !s.draining {
      RetryDueEffect(s, now);
    }
  }

  lemma OtherKeys(g: System, e: Event, g': System)
    requires SysInv(g) && Step(g, e, g') && !e.Measures? && !e.Finishes?
    ensures KeysStay(g.s, g'.s) && g'.s.measured == g.s.measured
  {
    hide SysInv, Inv, Notify, WaitLoop, LeaveWait, Hold, Release, TakeNext, KeysStay;
    SysParts(g);
    match e {
      case Notifies(key, chars, now) => NotifyKeys(g.s, key, chars, now);
      case Waits(w, key, limit, now) =>
        if key in g.s.users {
          WaitsKeys(g.s, g.s.users[key], limit, now);
        } else {
          KeysSame(g.s, g'.s);
        }
      case WaiterWakes(w, gone) => WaitKeys(g.s, g.waiters[w].entry, g.waiters[w].limit, g.waiters[w].now);
      case Holds(h, key) => HoldKeys(g.s, key);
      case Releases(h) => ReleaseKeys(g.s, g.holders[h]);
      case Looks(w) => TakeNextKeys(g.s, g.workers[w].now);
      case _ => KeysSame(g.s, g'.s);
    }
  }

  lemma KeysSame(s: Sched, t: Sched)
    requires t.entries == s.entries
    ensures KeysStay(s, t)
  {
  }

  lemma WaitsKeys(s: Sched, i: nat, limit: int, now: Time)
    requires i < |s.entries|
    ensures var t := WaitLoop(EnterWait(s, i), i, limit, now).0;
            KeysStay(s, t) && t.measured == s.measured
  {
    hide WaitLoop, LeaveWait;
    WaitKeys(EnterWait(s, i), i, limit, now);
  }

  lemma OtherJobs(g: System, e: Event, g': System, w: nat)
    requires SysInv(g) && Step(g, e, g') && !e.Finishes?
    requires w < |g'.workers| && g'.workers[w].InJob? && !(e.Looks? && e.w == w)
    ensures w < |g.workers| && g.workers[w] == g'.workers[w]
  {
    hide SysInv, Notify, WaitLoop, LeaveWait, Hold, Release, TakeNext, Measured;
  }

  // ---- every act keeps the bounds ----

  /** The view of the user whose job a worker runs is its entry's. */
  lemma JobView(g: System, w: nat)
    requires SysInv(g) && WellFormed(g) && Known(g.s) && w < |g.workers| && g.workers[w].InJob?
    ensures ViewOf(g.s, JobKey(g, w)) == OfEntry(g.s.entries[g.workers[w].entry])
    ensures ViewOf(g.s, JobKey(g, w)).phase.Running? && ViewOf(g.s, JobKey(g, w)).added >= 0
  {
    EntryInv(g.s, g.workers[w].entry);
  }

  lemma OtherFacts(x: World, a: Act, x': World)
    requires WorldInv(x) && a.Other? && Moves(x, a, x')
    ensures Step(x.g, a.e, x'.g) && !a.e.Measures? && !a.e.Finishes? && (a.e.Notifies? ==> a.e.chars == 0)
    ensures x' == x.(g := x'.g, measures := if a.e.Looks? then x.measures - {a.e.w} else x.measures)
  {
    hide SysInv, Apply, Enabled, JobBound, Bound;
  }

  lemma OtherBounds(x: World, a: Act, x': World, k: Key)
    requires WorldInv(x) && a.Other? && Moves(x, a, x')
    requires Known(x.g.s) && Known(x'.g.s) && MildAll(x.g.s, x'.g.s) && x'.g.s.measured == x.g.s.measured
    ensures Bound(x', k)
  {
    hide SysInv, Inv, Moves, Step, WorldInv, WellFormed, ViewOf, Enabled, Apply;
    OtherFacts(x, a, x');
    BoundAt(x, k);
    assert Mild(ViewOf(x.g.s, k), ViewOf(x'.g.s, k));
  }

  lemma OtherJobBound(x: World, a: Act, x': World, w: nat)
    requires WorldInv(x) && a.Other? && Moves(x, a, x') && WellFormed(x'.g)
    requires Known(x.g.s) && Known(x'.g.s) && MildAll(x.g.s, x'.g.s) && KeysStay(x.g.s, x'.g.s)
    requires w < |x'.g.workers| && x'.g.workers[w].InJob?
    ensures JobBound(x', w)
  {
    hide SysInv, Inv, Moves, Step, WorldInv, Known, ViewOf, Enabled, Apply;
    OtherFacts(x, a, x');
    WorldParts(x);
    if !(a.e.Looks? && a.e.w == w) {
      OtherJobs(x.g, a.e, x'.g, w);
      JobBoundAt(x, w);
      JobView(x.g, w);
      assert Mild(ViewOf(x.g.s, JobKey(x.g, w)), ViewOf(x'.g.s, JobKey(x.g, w)));
    }
  }

  lemma OtherInv(x: World, a: Act, x': World)
    requires WorldInv(x) && a.Other? && Moves(x, a, x')
    ensures WorldInv(x')
  {
    hide SysInv, Inv, Moves, Step, Known, WellFormed, Bound, JobBound, ViewOf, MildAll, KeysStay, Enabled, Apply;
    OtherFacts(x, a, x');
    StepInv(x.g, a.e, x'.g);
    SysWellFormed(x'.g);
    OtherViews(x.g, a.e, x'.g);
    OtherKeys(x.g, a.e, x'.g);
    forall k
      ensures Bound(x', k)
    {
      OtherBounds(x, a, x', k);
    }
    forall w | 0 <= w < |x'.g.workers| && x'.g.workers[w].InJob?
      ensures JobBound(x', w)
    {
      OtherJobBound(x, a, x', w);
    }
  }

  /** Acts of Adds and folds that do not touch the scheduler. */
  lemma OutsideInv(x: World, a: Act, x': World)
    requires WorldInv(x) && Moves(x, a, x') && EventOf(x, a).None?
    ensures WorldInv(x')
  {
    hide SysInv, Moves, Bound, JobBound, WellFormed, Known, EventOf;
    OutsideFacts(x, a, x');
    forall k
      ensures Bound(x', k)
    {
      OutsideBound(x, a, x', k);
    }
    forall w | 0 <= w < |x'.g.workers| && x'.g.workers[w].InJob?
      ensures JobBound(x', w)
    {
      OutsideJobBound(x, a, x', w);
    }
  }

  lemma OutsideFacts(x: World, a: Act, x': World)
    requires Moves(x, a, x') && EventOf(x, a).None?
    ensures x'.g == x.g
  {
    hide WellFormed, Apply, Enabled;
  }

  lemma OutsideBound(x: World, a: Act, x': World, k: Key)
    requires WorldInv(x) && Moves(x, a, x') && EventOf(x, a).None? && Known(x'.g.s)
    ensures Bound(x', k)
  {
    hide SysInv, WorldInv, WellFormed, Apply, Enabled, ViewOf, Known, JobKey;
    OutsideFacts(x, a, x');
    BoundAt(x, k);
  }

  lemma OutsideJobBound(x: World, a: Act, x': World, w: nat)
    requires WorldInv(x) && Moves(x, a, x') && EventOf(x, a).None? && Known(x'.g.s) && WellFormed(x'.g)
    requires w < |x'.g.workers| && x'.g.workers[w].InJob?
    ensures JobBound(x', w)
  {
    hide SysInv, WorldInv, WellFormed, Apply, Enabled, ViewOf, Known, JobKey;
    OutsideFacts(x, a, x');
    WorldParts(x);
    JobBoundAt(x, w);
    BoundAt(x, JobKey(x.g, w));
    JobView(x.g, w);
  }

  lemma TellsFacts(x: World, a: Act, x': World)
    requires WorldInv(x) && a.Tells? && Moves(x, a, x')
    ensures Step(x.g, Notifies(a.key, a.chars, a.now), x'.g) && a.chars >= 0
    ensures x'.g.s == Notify(x.g.s, a.key, a.chars, a.now) && x'.g.workers == x.g.workers
    ensures a.key in x.adds && x.adds[a.key].Telling? && x.adds[a.key].unsaid <= a.of <= a.chars
    ensures a.of <= Val(x.unnotified, a.key)
    ensures var lost := !Accepts(x.g.s, a.key) && a.of > 0;
            x' == x.(g := x'.g, adds := x.adds[a.key := Recording(x.adds[a.key].measure)],
                     unnotified := x.unnotified[a.key := Val(x.unnotified, a.key) - a.of],
                     sound := if lost then x.sound - {a.key} else x.sound,
                     dropped := if lost then x.dropped + {a.key} else x.dropped)
  {
    hide SysInv, Notify, JobBound, Bound;
  }

  /** A user the step is not about. */
  ghost predicate SameFor(x: World, x': World, k: Key)
    requires Known(x.g.s) && Known(x'.g.s)
  {
    && ViewOf(x'.g.s, k) == ViewOf(x.g.s, k) && Val(x'.pending, k) == Val(x.pending, k)
    && Val(x'.unnotified, k) == Val(x.unnotified, k) && (k in x'.adds <==> k in x.adds)
    && (k in x.adds ==> x'.adds[k] == x.adds[k])
    && (k in x'.sound <==> k in x.sound) && (k in x'.dropped <==> k in x.dropped)
    && (k in x'.g.s.measured <==> k in x.g.s.measured)
  }

  lemma SameBound(x: World, x': World, k: Key)
    requires Known(x.g.s) && Known(x'.g.s) && SameFor(x, x', k) && Bound(x, k)
    ensures Bound(x', k)
  {
    hide ViewOf, Known;
  }

  /** The notification of what an Add wrote, as numbers: v is the user's view before it. */
  lemma TellsViews(x: World, a: Act, x': World)
    requires WorldInv(x) && a.Tells? && Moves(x, a, x') && Known(x'.g.s)
    ensures Known(x.g.s) && x'.g.s.measured == x.g.s.measured && a.chars >= 0
    ensures forall k :: k != a.key ==> ViewOf(x'.g.s, k) == ViewOf(x.g.s, k)
    ensures ViewOf(x'.g.s, a.key) ==
            if Accepts(x.g.s, a.key) then ToldView(ViewOf(x.g.s, a.key), a.chars, a.now) else ViewOf(x.g.s, a.key)
  {
    hide SysInv, Inv, Moves, Step, WorldInv, WellFormed, Notify, Enabled, Apply, Accepts, ToldView, ViewOf;
    TellsFacts(x, a, x');
    WorldParts(x);
    SysParts(x.g);
    NotifyView(x.g.s, a.key, a.chars, a.now);
    NotifyKeys(x.g.s, a.key, a.chars, a.now);
  }

  lemma TellsBound(x: World, a: Act, x': World, k: Key)
    requires WorldInv(x) && a.Tells? && Moves(x, a, x') && Known(x'.g.s)
    ensures Bound(x', k)
  {
    hide SysInv, Inv, Moves, Step, WorldInv, WellFormed, Notify, Enabled, Apply, Accepts, ViewOf, Known;
    TellsViews(x, a, x');
    TellsFacts(x, a, x');
    BoundAt(x, k);
    if k != a.key {
      SameBound(x, x', k);
    }
  }

  lemma TellsJobBound(x: World, a: Act, x': World, w: nat)
    requires WorldInv(x) && a.Tells? && Moves(x, a, x') && Known(x'.g.s) && WellFormed(x'.g)
    requires w < |x'.g.workers| && x'.g.workers[w].InJob?
    ensures JobBound(x', w)
  {
    hide SysInv, Inv, Moves, Step, WorldInv, Notify, Enabled, Apply, Accepts, ViewOf, Known;
    TellsViews(x, a, x');
    TellsFacts(x, a, x');
    TellsKeys(x, a, x');
    WorldParts(x);
    JobBoundAt(x, w);
    JobView(x.g, w);
    RunningAccepts(x.g.s, JobKey(x.g, w));
  }

  /** A notification of a running user is not dropped. */
  lemma RunningAccepts(s: Sched, k: Key)
    requires Known(s) && ViewOf(s, k).phase.Running?
    ensures Accepts(s, k)
  {
  }

  lemma TellsKeys(x: World, a: Act, x': World)
    requires WorldInv(x) && a.Tells? && Moves(x, a, x')
    ensures KeysStay(x.g.s, x'.g.s)
  {
    hide SysInv, Inv, Moves, Step, WorldInv, Notify, Enabled, Apply, Accepts, ViewOf, KeysStay;
    TellsFacts(x, a, x');
    WorldParts(x);
    NotifyKeys(x.g.s, a.key, a.chars, a.now);
  }

  lemma TellsInv(x: World, a: Act, x': World)
    requires WorldInv(x) && a.Tells? && Moves(x, a, x')
    ensures WorldInv(x')
  {
    hide SysInv, Inv, Moves, Step, Known, WellFormed, Bound, JobBound, ViewOf, Notify, Enabled, Apply, Accepts;
    TellsFacts(x, a, x');
    StepInv(x.g, Notifies(a.key, a.chars, a.now), x'.g);
    SysWellFormed(x'.g);
    SysKnown(x'.g);
    forall k
      ensures Bound(x', k)
    {
      TellsBound(x, a, x', k);
    }
    forall w | 0 <= w < |x'.g.workers| && x'.g.workers[w].InJob?
      ensures JobBound(x', w)
    {
      TellsJobBound(x, a, x', w);
    }
  }

  lemma SysKnown(g: System)
    requires SysInv(g)
    ensures Known(g.s)
  {
    hide Inv, Known, JobsOk, WaitersOk, HoldersOk, ChannelsOk, ChannelBounds, SleepersOk, TimersOk, WaitingOk;
    InvKnown(g.s);
  }

  lemma RecordsFacts(x: World, a: Act, x': World)
    requires WorldInv(x) && a.Records? && Moves(x, a, x') && EventOf(x, a).Some?
    ensures a.key in x.adds && x.adds[a.key].Recording? && x.adds[a.key].measure >= 0
    ensures var m := x.adds[a.key].measure;
            && Step(x.g, Measures(a.key, m), x'.g)
            && x'.g.s == Measured(x.g.s, a.key, m) && x'.g.workers == x.g.workers
            && x' == x.(g := x'.g, adds := x.adds - {a.key},
                        sound := if TakesMeasure(x.g.s, a.key) then x.sound + {a.key} else x.sound)
  {
    hide SysInv, Measured, JobBound, Bound;
  }

  lemma RecordsBound(x: World, a: Act, x': World, k: Key)
    requires WorldInv(x) && a.Records? && Moves(x, a, x') && EventOf(x, a).Some? && Known(x'.g.s)
    ensures Bound(x', k)
  {
    hide SysInv, Inv, Moves, Step, WorldInv, WellFormed, Measured, Enabled, Apply;
    RecordsFacts(x, a, x');
    WorldParts(x);
    SysParts(x.g);
    BoundAt(x, k);
    BoundAt(x, a.key);
    MeasuredView(x.g.s, a.key, x.adds[a.key].measure);
    MeasuredKeys(x.g.s, a.key, x.adds[a.key].measure);
  }

  lemma RecordsJobBound(x: World, a: Act, x': World, w: nat)
    requires WorldInv(x) && a.Records? && Moves(x, a, x') && EventOf(x, a).Some? && Known(x'.g.s) && WellFormed(x'.g)
    requires w < |x'.g.workers| && x'.g.workers[w].InJob?
    ensures JobBound(x', w)
  {
    hide SysInv, Inv, Moves, Step, WorldInv, Measured, Enabled, Apply;
    RecordsFacts(x, a, x');
    WorldParts(x);
    SysParts(x.g);
    JobBoundAt(x, w);
    JobView(x.g, w);
    MeasuredView(x.g.s, a.key, x.adds[a.key].measure);
    MeasuredKeys(x.g.s, a.key, x.adds[a.key].measure);
  }

  lemma RecordsInv(x: World, a: Act, x': World)
    requires WorldInv(x) && a.Records? && Moves(x, a, x') && EventOf(x, a).Some?
    ensures WorldInv(x')
  {
    hide SysInv, Inv, Moves, Step, Known, WellFormed, Bound, JobBound, ViewOf, Measured, Enabled, Apply, TakesMeasure;
    RecordsFacts(x, a, x');
    StepInv(x.g, Measures(a.key, x.adds[a.key].measure), x'.g);
    SysWellFormed(x'.g);
    SysKnown(x'.g);
    forall k
      ensures Bound(x', k)
    {
      RecordsBound(x, a, x', k);
    }
    forall w | 0 <= w < |x'.g.workers| && x'.g.workers[w].InJob?
      ensures JobBound(x', w)
    {
      RecordsJobBound(x, a, x', w);
    }
  }

  lemma MeasuredKeys(s: Sched, key: Key, chars: int)
    requires key in s.users ==> s.users[key] < |s.entries|
    ensures KeysStay(s, Measured(s, key, chars))
    ensures Measured(s, key, chars).measured == if TakesMeasure(s, key) then s.measured + {key} else s.measured
  {
  }

  lemma FinishKeys(s: Sched, i: nat, backlog: int, outcome: Outcome, now: Time, jitter: real)
    requires Indexed(s) && i < |s.entries|
    ensures var t := Finish(s, i, backlog, outcome, now, jitter);
            KeysStay(s, t) && t.measured == if backlog >= 0 then s.measured + {s.entries[i].key} else s.measured
  {
    hide Settle, TakeJobMeasure;
    var s0 := s.(running := s.running - 1);
    JobMeasureEffect(s0, i, backlog);
    JobMeasureSet(s0, i, backlog);
    SettleEffect(TakeJobMeasure(s0, i, backlog), i, outcome, now, jitter);
  }

  lemma JobMeasureSet(s: Sched, i: nat, backlog: int)
    requires i < |s.entries|
    ensures TakeJobMeasure(s, i, backlog).measured
              == if backlog >= 0 then s.measured + {s.entries[i].key} else s.measured
  {
  }

  lemma JobEndsFacts(x: World, a: Act, x': World)
    requires WorldInv(x) && a.JobEnds? && Moves(x, a, x')
    ensures a.w < |x.g.workers| && x.g.workers[a.w].InJob?
    ensures var m, i := JobMeasure(x, a.w), x.g.workers[a.w].entry;
            && i < |x.g.s.entries| && Indexed(x.g.s)
            && Step(x.g, Finishes(a.w, m, a.outcome, a.now, a.jitter), x'.g)
            && x'.g.s == Finish(x.g.s, i, m, a.outcome, a.now, a.jitter) && x'.g.workers == x.g.workers[a.w := Top]
            && x' == x.(g := x'.g, measures := x.measures - {a.w},
                        sound := if m >= 0 then x.sound + {JobKey(x.g, a.w)} else x.sound)
  {
    hide SysInv, Finish, JobBound, Bound;
  }

  lemma JobEndsBound(x: World, a: Act, x': World, k: Key)
    requires WorldInv(x) && a.JobEnds? && Moves(x, a, x') && Known(x'.g.s)
    ensures Bound(x', k)
  {
    hide SysInv, Inv, Moves, Step, WorldInv, Finish, Enabled, Apply, JobsOk, HoldersOk, WaitersOk, Settle;
    JobEndsFacts(x, a, x');
    WorldParts(x);
    SysParts(x.g);
    BoundAt(x, k);
    JobBoundAt(x, a.w);
    JobView(x.g, a.w);
    var i := x.g.workers[a.w].entry;
    FinishView(x.g.s, i, JobMeasure(x, a.w), a.outcome, a.now, a.jitter);
    FinishKeys(x.g.s, i, JobMeasure(x, a.w), a.outcome, a.now, a.jitter);
  }

  lemma JobEndsJobBound(x: World, a: Act, x': World, w: nat)
    requires WorldInv(x) && a.JobEnds? && Moves(x, a, x') && Known(x'.g.s) && WellFormed(x'.g)
    requires w < |x'.g.workers| && x'.g.workers[w].InJob?
    ensures JobBound(x', w)
  {
    hide SysInv, Inv, Moves, Step, WorldInv, Finish, Enabled, Apply;
    JobEndsFacts(x, a, x');
    WorldParts(x);
    SysParts(x.g);
    SysThreads(x.g);
    JobBoundAt(x, w);
    JobView(x.g, w);
    OtherKey(x.g, w, a.w);
    var i := x.g.workers[a.w].entry;
    FinishView(x.g.s, i, JobMeasure(x, a.w), a.outcome, a.now, a.jitter);
    FinishKeys(x.g.s, i, JobMeasure(x, a.w), a.outcome, a.now, a.jitter);
  }

  lemma JobEndsInv(x: World, a: Act, x': World)
    requires WorldInv(x) && a.JobEnds? && Moves(x, a, x')
    ensures WorldInv(x')
  {
    hide SysInv, Inv, Moves, Step, Known, WellFormed, Bound, JobBound, ViewOf, Finish, Enabled, Apply;
    JobEndsFacts(x, a, x');
    StepInv(x.g, Finishes(a.w, JobMeasure(x, a.w), a.outcome, a.now, a.jitter), x'.g);
    SysWellFormed(x'.g);
    SysKnown(x'.g);
    forall k
      ensures Bound(x', k)
    {
      JobEndsBound(x, a, x', k);
    }
    forall w | 0 <= w < |x'.g.workers| && x'.g.workers[w].InJob?
      ensures JobBound(x', w)
    {
      JobEndsJobBound(x, a, x', w);
    }
  }

  lemma OtherKey(g: System, v: nat, w: nat)
    requires SysInv(g) && WellFormed(g) && v < |g.workers| && w < |g.workers| && v != w
    requires g.workers[v].InJob? && g.workers[w].InJob?
    ensures JobKey(g, v) != JobKey(g, w)
  {
    EntryInv(g.s, g.workers[v].entry);
    EntryInv(g.s, g.workers[w].entry);
  }

  lemma MovesInv(x: World, a: Act, x': World)
    requires WorldInv(x) && Moves(x, a, x')
    ensures WorldInv(x')
  {
    hide WorldInv, Moves;
    if a.Other? {
      OtherInv(x, a, x');
    } else if a.Tells? {
      TellsInv(x, a, x');
    } else if a.JobEnds? {
      JobEndsInv(x, a, x');
    } else if EventOf(x, a).Some? {
      RecordsInv(x, a, x');
    } else {
      OutsideInv(x, a, x');
    }
  }

  lemma BeginsInv(x: World)
    requires Begins(x)
    ensures WorldInv(x)
  {
    hide SysInv, Inv, Bound, JobBound, WellFormed, Known;
    StartInvHolds(x.g);
    SysWellFormed(x.g);
    SysKnown(x.g);
    forall k
      ensures Bound(x, k)
    {
      BeginsBound(x, k);
    }
  }

  lemma BeginsBound(x: World, k: Key)
    requires Begins(x) && Known(x.g.s)
    ensures Bound(x, k)
  {
    hide Known;
  }

  lemma {:induction false} HistoryInv(worlds: seq<World>, acts: seq<Act>, i: nat)
    requires IsHistory(worlds, acts) && Begins(worlds[0]) && i < |worlds|
    ensures WorldInv(worlds[i])
  {
    hide WorldInv, Moves, Begins;
    if i == 0 {
      BeginsInv(worlds[0]);
    } else {
      HistoryInv(worlds, acts, i - 1);
      assert Moves(worlds[i - 1], acts[i - 1], worlds[i - 1 + 1]);
      MovesInv(worlds[i - 1], acts[i - 1], worlds[i]);
    }
  }

  /**
   From a user's first measure on, and until a notification of the user is
   dropped, what is really pending is at most the estimate and what Adds have
   written and not notified yet, in every interleaving. A user the scheduler
   has forgotten has an estimate of 0. After a drop, the next measure that is
   recorded, a job's or an Add's, makes it hold again (sound).
   */
  lemma NeverUnderCounts(worlds: seq<World>, acts: seq<Act>, i: nat, k: Key)
    requires IsHistory(worlds, acts) && Begins(worlds[0]) && i < |worlds|
    requires k in worlds[i].sound || (k in worlds[i].g.s.measured && k !in worlds[i].dropped)
    ensures Known(worlds[i].g.s)
    ensures Val(worlds[i].pending, k) <= Estimate(worlds[i].g.s, k) + Val(worlds[i].unnotified, k)
  {
    HistoryInv(worlds, acts, i);
    assert Bound(worlds[i], k);
  }
}
