/**
 The scheduler with everyone who calls it: workers, Adds that notify and wait,
 Searches that hold, measures, drains and Run, in every interleaving. A step
 is one lock-held section, a clock reading, a sleep or a wake-up, or the close
 of a channel replaced earlier.
 */
module SchedulerSystem {
  import opened Common
  import opened SchedulerState
  import opened SchedulerInvariant

  /** Where a worker is in work and next. */
  datatype Worker =
    | Off
    | Top
    | HasChannel(ch: nat)
    | HasClock(ch: nat, now: Time)
    | Drowsy(ch: nat, now: Time, due: Option<Time>)
    | Asleep(ch: nat, due: Option<Time>, lag: Time, until: Option<Time>)
    | InJob(entry: nat)

  /** A WaitBacklog asleep: the entry it keeps, its limit, the clock as it read it, its channel. */
  datatype Waiter = Waiter(entry: nat, limit: int, now: Time, ch: nat)

  /** holders maps each Search that holds a user to the entry its release keeps. */
  datatype System = System(
    s: Sched, clock: Time, workers: seq<Worker>, waiters: map<nat, Waiter>, holders: map<nat, nat>,
    closing: set<nat>, closed: set<nat>)

  datatype Event =
    | Tick(to: Time)
    | Closes(ch: nat)
    | Notifies(key: Key, chars: int, now: Time)
    | Waits(w: nat, key: Key, limit: int, now: Time)
    | WaiterWakes(w: nat, gone: bool)
    | Holds(h: nat, key: Key)
    | Releases(h: nat)
    | Drains
    | Starts
    | Ends
    | Measures(key: Key, chars: int)
    | TakesChannel(w: nat)
    | ReadsClock(w: nat)
    | Looks(w: nat)
    | FallsAsleep(w: nat)
    | Wakes(w: nat, gone: bool)
    | Leaves(w: nat)
    | Finishes(w: nat, backlog: int, outcome: Outcome, now: Time, jitter: real)

  ghost predicate WellFormed(g: System) {
    && Indexed(g.s)
    && (forall w :: 0 <= w < |g.workers| && g.workers[w].InJob? ==> g.workers[w].entry < |g.s.entries|)
    && (forall w :: w in g.waiters ==> g.waiters[w].entry < |g.s.entries|)
    && (forall h :: h in g.holders ==> g.holders[h] < |g.s.entries|)
  }

  ghost predicate At(g: System, w: nat) {
    w < |g.workers|
  }

  /** When an event may happen. A time given to a section was read from the clock before it. */
  ghost predicate Enabled(g: System, e: Event) {
    match e
    case Tick(to) => g.clock <= to
    case Closes(ch) => ch in g.closing
    case Notifies(key, chars, now) => now <= g.clock && chars >= 0
    case Waits(w, key, limit, now) => w !in g.waiters && now <= g.clock
    case WaiterWakes(w, gone) => w in g.waiters && (gone || g.waiters[w].ch in g.closed)
    case Holds(h, key) => h !in g.holders
    case Releases(h) => h in g.holders
    case Drains => true
    case Starts => !g.s.started
    case Ends => g.s.started && forall w :: 0 <= w < |g.workers| ==> g.workers[w].Off?
    case Measures(key, chars) => chars >= 0
    case TakesChannel(w) => At(g, w) && g.workers[w].Top?
    case ReadsClock(w) => At(g, w) && g.workers[w].HasChannel?
    case Looks(w) => At(g, w) && g.workers[w].HasClock?
    case FallsAsleep(w) => At(g, w) && g.workers[w].Drowsy?
    case Wakes(w, gone) =>
      && At(g, w) && g.workers[w].Asleep?
      && (gone || g.workers[w].ch in g.closed
          || (g.workers[w].until.Some? && g.workers[w].until.value <= g.clock))
    case Leaves(w) => At(g, w) && g.workers[w].Top?
    case Finishes(w, backlog, outcome, now, jitter) => At(g, w) && g.workers[w].InJob? && now <= g.clock
  }

  /** The state after a section: a channel it replaced is now for its caller to close. */
  function Become(g: System, t: Sched): System {
    g.(s := t, closing := if t.changed == g.s.changed then g.closing else g.closing + {g.s.changed})
  }

  function Worked(g: System, w: nat, pc: Worker): System
    requires w < |g.workers|
  {
    g.(workers := g.workers[w := pc])
  }

  ghost function AfterLoop(g: System, w: nat, entry: nat, limit: int, now: Time, r: (Sched, WaitNext)): System {
    var g' := Become(g, r.0);
    match r.1
    case Return => g'.(waiters := g.waiters - {w})
    case Sleep(ch) => g'.(waiters := g.waiters[w := Waiter(entry, limit, now, ch)])
  }

  ghost function Apply(g: System, e: Event): System
    requires WellFormed(g) && Enabled(g, e)
  {
    match e
    case Tick(to) => g.(clock := to)
    case Closes(ch) => g.(closing := g.closing - {ch}, closed := g.closed + {ch})
    case Notifies(key, chars, now) => Become(g, Notify(g.s, key, chars, now))
    case Waits(w, key, limit, now) =>
      if key !in g.s.users then g
      else
        var i := g.s.users[key];
        AfterLoop(g, w, i, limit, now, WaitLoop(EnterWait(g.s, i), i, limit, now))
    case WaiterWakes(w, gone) =>
      var x := g.waiters[w];
      if gone then g.(s := LeaveWait(g.s, x.entry), waiters := g.waiters - {w})
      else AfterLoop(g, w, x.entry, x.limit, x.now, WaitLoop(g.s, x.entry, x.limit, x.now))
    case Holds(h, key) =>
      var t := Hold(g.s, key);
      g.(s := t, holders := g.holders[h := t.users[key]])
    case Releases(h) => Become(g, Release(g.s, g.holders[h])).(holders := g.holders - {h})
    case Drains => Become(g, Drain(g.s))
    case Starts => g.(s := RunStarts(g.s), workers := seq(|g.workers|, _ => Top))
    case Ends => Become(g, RunEnds(g.s))
    case Measures(key, chars) => Become(g, Measured(g.s, key, chars))
    case TakesChannel(w) => Worked(g, w, HasChannel(g.s.changed))
    case ReadsClock(w) => Worked(g, w, HasClock(g.workers[w].ch, g.clock))
    case Looks(w) =>
      var pc := g.workers[w];
      var r := TakeNext(g.s, pc.now);
      Worked(Become(g, r.0), w,
             match r.1
             case Exit => Off
             case Runs(i) => InJob(i)
             case Waits(due) => Drowsy(pc.ch, pc.now, due))
    case FallsAsleep(w) =>
      // sleep's timer runs for due - now from the moment it is set.
      var pc := g.workers[w];
      var lag := g.clock - pc.now;
      Worked(g, w, Asleep(pc.ch, pc.due, lag, if pc.due.Some? then Some(pc.due.value + lag) else None))
    case Wakes(w, gone) => Worked(g, w, Top)
    case Leaves(w) => Worked(g, w, Off)
    case Finishes(w, backlog, outcome, now, jitter) =>
      Worked(Become(g, Finish(g.s, g.workers[w].entry, backlog, outcome, now, jitter)), w, Top)
  }

  ghost predicate Step(g: System, e: Event, g': System) {
    WellFormed(g) && Enabled(g, e) && g' == Apply(g, e)
  }

  ghost predicate Start0(g: System) {
    && g == System(NewSched(g.s.maxUsers), g.clock, g.workers, map[], map[], {}, {})
    && forall w :: 0 <= w < |g.workers| ==> g.workers[w] == Off
  }

  /** A run: its states, each reached from the one before it by an event. */
  ghost predicate IsRun(states: seq<System>, events: seq<Event>) {
    && |states| == |events| + 1
    && forall i :: 0 <= i < |events| ==> Step(states[i], events[i], states[i + 1])
  }

  // ---- what every run keeps ----

  ghost predicate JobsOk(entries: seq<User>, workers: seq<Worker>) {
    && (forall w :: 0 <= w < |workers| && workers[w].InJob? ==>
        workers[w].entry < |entries| && entries[workers[w].entry].phase.Running?)
    && (forall v, w :: 0 <= v < w < |workers| && workers[v].InJob? && workers[w].InJob? ==>
        workers[v].entry != workers[w].entry)
    && (forall i :: 0 <= i < |entries| && entries[i].phase.Running? ==>
        exists w :: 0 <= w < |workers| && workers[w] == InJob(i))
  }

  ghost function WaitersOn(ws: map<nat, Waiter>, i: nat): set<nat> {
    set w | w in ws && ws[w].entry == i
  }

  ghost function HoldersOf(hs: map<nat, nat>, i: nat): set<nat> {
    set h | h in hs && hs[h] == i
  }

  ghost predicate WaitersOk(entries: seq<User>, waiters: map<nat, Waiter>) {
    && (forall w :: w in waiters ==> waiters[w].entry < |entries|)
    && (forall i :: 0 <= i < |entries| ==> entries[i].waiters == |WaitersOn(waiters, i)|)
  }

  ghost predicate HoldersOk(entries: seq<User>, holders: map<nat, nat>) {
    && (forall h :: h in holders ==> holders[h] < |entries|)
    && (forall i :: 0 <= i < |entries| ==> entries[i].holds == |HoldersOf(holders, i)|)
  }

  /** Every replaced channel is closed, or about to be, once; the current one is neither. */
  ghost predicate ChannelsOk(changed: nat, closing: set<nat>, closed: set<nat>) {
    && closing !! closed
    && forall ch: nat :: ch in closing || ch in closed <==> ch < changed
  }

  predicate Sleeping(pc: Worker) {
    pc.Drowsy? || pc.Asleep?
  }

  predicate HasTaken(pc: Worker) {
    pc.HasChannel? || pc.HasClock? || Sleeping(pc)
  }

  /**
   What a worker that found nothing to start relies on while its channel is
   the current one: its timer is for the first retry, and whoever became
   startable since was a retry due by then.
   */
  ghost predicate MaySleep(s: Sched, clock: Time, due: Option<Time>)
    requires Indexed(s)
  {
    && (forall i :: i in s.retries ==> due.Some? && due.value <= s.entries[i].retryAt)
    && (forall i: nat :: Startable(s, i) ==> due.Some? && due.value <= clock)
  }

  /** A user next would start now: queued, and held by no Search. */
  ghost predicate Startable(s: Sched, i: nat) {
    i < |s.entries| && i in s.queue && s.entries[i].holds == 0
  }

  ghost predicate SleepersOk(g: System)
    requires Indexed(g.s)
  {
    forall w :: 0 <= w < |g.workers| && Sleeping(g.workers[w]) && g.workers[w].ch == g.s.changed ==>
      MaySleep(g.s, g.clock, g.workers[w].due)
  }

  ghost predicate TimersOk(workers: seq<Worker>) {
    forall w :: 0 <= w < |workers| && workers[w].Asleep? ==>
      && (workers[w].due.Some? <==> workers[w].until.Some?)
      && (workers[w].due.Some? ==> workers[w].until.value == workers[w].due.value + workers[w].lag)
  }

  ghost predicate ChannelBounds(g: System) {
    && (forall w :: 0 <= w < |g.workers| && HasTaken(g.workers[w]) ==> g.workers[w].ch <= g.s.changed)
    && (forall w :: 0 <= w < |g.workers| && (g.workers[w].HasClock? || g.workers[w].Drowsy?) ==>
        g.workers[w].now <= g.clock)
    && (forall w :: w in g.waiters ==> g.waiters[w].ch <= g.s.changed)
  }

  /** A WaitBacklog asleep on the current channel still has its reason to wait, and a job to wait on. */
  ghost predicate WaitingOk(s: Sched, waiters: map<nat, Waiter>)
    requires forall w :: w in waiters ==> waiters[w].entry < |s.entries|
  {
    forall w :: w in waiters && waiters[w].ch == s.changed ==>
      && KeepsWaiting(s, waiters[w].entry, waiters[w].limit)
      && !s.entries[waiters[w].entry].phase.Idle?
  }

  ghost predicate SysInv(g: System) {
    && Inv(g.s)
    && Indexed(g.s)
    && JobsOk(g.s.entries, g.workers)
    && WaitersOk(g.s.entries, g.waiters)
    && HoldersOk(g.s.entries, g.holders)
    && ChannelsOk(g.s.changed, g.closing, g.closed)
    && ChannelBounds(g)
    && SleepersOk(g)
    && TimersOk(g.workers)
    && WaitingOk(g.s, g.waiters)
    && (!g.s.started ==> forall w :: 0 <= w < |g.workers| ==> g.workers[w].Off?)
  }

  lemma SysWellFormed(g: System)
    requires SysInv(g)
    ensures WellFormed(g)
  {
  }

  // ---- what a section leaves as it was ----

  ghost predicate SameJobs(es: seq<User>, fs: seq<User>) {
    && |es| <= |fs|
    && (forall i :: 0 <= i < |es| ==> (fs[i].phase.Running? <==> es[i].phase.Running?))
    && (forall i :: |es| <= i < |fs| ==> !fs[i].phase.Running?)
  }

  ghost predicate SameWaits(es: seq<User>, fs: seq<User>) {
    && |es| <= |fs|
    && (forall i :: 0 <= i < |es| ==> fs[i].waiters == es[i].waiters)
    && (forall i :: |es| <= i < |fs| ==> fs[i].waiters == 0)
  }

  ghost predicate SameHolds(es: seq<User>, fs: seq<User>) {
    && |es| <= |fs|
    && (forall i :: 0 <= i < |es| ==> fs[i].holds == es[i].holds)
    && (forall i :: |es| <= i < |fs| ==> fs[i].holds == 0)
  }

  /** Nobody becomes startable but by a retry that is due, and no retry is added. */
  ghost predicate Quiet(s: Sched, t: Sched, clock: Time)
    requires Indexed(s) && Indexed(t)
  {
    && (forall i :: i in t.retries ==>
        i in s.retries && i < |s.entries| && t.entries[i].retryAt == s.entries[i].retryAt)
    && (forall i: nat :: Startable(t, i) ==>
        Startable(s, i) || (i in s.retries && i < |s.entries| && s.entries[i].retryAt <= clock))
  }

  /** Nobody who waits gets a reason to stop. */
  ghost predicate Calm(s: Sched, t: Sched) {
    && |s.entries| <= |t.entries|
    && (t.stopped ==> s.stopped) && (t.draining ==> s.draining)
    && forall i :: 0 <= i < |s.entries| ==>
      && t.entries[i].backlog == s.entries[i].backlog
      && (s.entries[i].phase.Queued? || s.entries[i].phase.Running? ==>
          t.entries[i].phase.Queued? || t.entries[i].phase.Running?)
  }

  /** A section replaces the channel, or it is quiet and calm. */
  ghost predicate Smooth(s: Sched, t: Sched, clock: Time) {
    && Indexed(s) && Indexed(t) && |s.entries| <= |t.entries|
    && (t.changed == s.changed + 1 || (t.changed == s.changed && Quiet(s, t, clock) && Calm(s, t)))
  }
}
