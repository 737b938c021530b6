/**
 A sleeping worker's timer can fire after the time it was set for: sleep lets
 retryAt - now pass from the moment it sets the timer, and now was read
 earlier, before the lock was taken. A run that shows it: two users back off
 to the same time; a worker looks, dawdles for five units and goes to sleep;
 at the retry time the other worker takes the first user, which moves the
 second to the queue without replacing the channel. The second user is
 startable, its time has come, and the first worker sleeps on.
 */
module SchedulerLateTimer {
  import opened Common
  import opened SchedulerState
  import opened SchedulerInvariant
  import opened SchedulerSystem
  import opened SchedulerTheorems
  import RetryDelay

  const PAUSE: int := RetryDelay.RESERVE_PAUSE

  lemma Goes(g: System, e: Event, g': System)
    requires Reachable(g) && Step(g, e, g')
    ensures Reachable(g')
  {
    var states: seq<System>, events: seq<Event> :|
      IsRun(states, events) && Start0(states[0]) && states[|states| - 1] == g;
    var states', events' := states + [g'], events + [e];
    forall i | 0 <= i < |events'|
      ensures Step(states'[i], events'[i], states'[i + 1])
    {
      if i < |events| {
        assert Step(states[i], events[i], states[i + 1]);
      }
    }
    assert IsRun(states', events') && states'[0] == states[0] && states'[|states'| - 1] == g';
  }

  function Waiting(key: Key): User { NewUser(key).(phase := Queued, since := Some(0)) }
  function Busy(key: Key): User { Waiting(key).(phase := Running) }
  function Paused(key: Key, n: int): User {
    Waiting(key).(phase := BackingOff, failures := 1, retryAt := PAUSE, seqNo := n)
  }

  function Told2(started: bool): Sched {
    Sched(2, [Waiting("a"), Waiting("b")], map["a" := 0, "b" := 1], {}, [0, 1], [], 0, 0, 2, started, false, false)
  }

  /** The scheduler of the run, with these users in these places. */
  function With(a: User, b: User, queue: seq<nat>, retries: seq<nat>, running: int, retrySeq: int,
                changed: nat): Sched {
    Sched(2, [a, b], map["a" := 0, "b" := 1], {}, queue, retries, running, retrySeq, changed, true, false, false)
  }

  function Now(s: Sched, clock: Time, workers: seq<Worker>): System {
    var replaced := if s.changed == 2 then {0, 1} else if s.changed == 3 then {0, 1, 2} else {0, 1, 2, 3};
    System(s, clock, workers, map[], map[], replaced, {})
  }

  lemma FirstTold()
    ensures Notify(NewSched(2), "a", 0, 0) == TOLD1
  {
  }

  lemma SecondTold(s: Sched)
    requires s == Sched(2, [Waiting("a")], map["a" := 0], {}, [0], [], 0, 0, 1, false, false, false)
    ensures Notify(s, "b", 0, 0) == Told2(false)
  {
    assert "b" !in s.users;
    assert Know(s, "b") == s.(entries := [Waiting("a"), NewUser("b")], users := map["a" := 0, "b" := 1]);
  }

  lemma NothingYet()
    ensures Reachable(System(NewSched(2), 0, [Off, Off], map[], map[], {}, {}))
  {
    var g := System(NewSched(2), 0, [Off, Off], map[], map[], {}, {});
    assert IsRun([g], []) && Start0([g][0]) && [g][|[g]| - 1] == g;
  }

  const TOLD1: Sched := Sched(2, [Waiting("a")], map["a" := 0], {}, [0], [], 0, 0, 1, false, false, false)

  lemma OneTold()
    ensures Reachable(System(TOLD1, 0, [Off, Off], map[], map[], {0}, {}))
  {
    hide Notify, Reachable;
    NothingYet();
    FirstTold();
    Goes(System(NewSched(2), 0, [Off, Off], map[], map[], {}, {}), Notifies("a", 0, 0),
         System(TOLD1, 0, [Off, Off], map[], map[], {0}, {}));
  }

  lemma BothTold()
    ensures Reachable(System(Told2(false), 0, [Off, Off], map[], map[], {0, 1}, {}))
  {
    hide Notify, Told2, Reachable;
    OneTold();
    SecondTold(TOLD1);
    Told2Channel();
    var g1 := System(TOLD1, 0, [Off, Off], map[], map[], {0}, {});
    assert g1.closing + {1} == {0, 1};
    Goes(g1, Notifies("b", 0, 0), System(Told2(false), 0, [Off, Off], map[], map[], {0, 1}, {}));
  }

  lemma Told2Channel()
    ensures Told2(false).changed == 2
  {
  }

  lemma Begins()
    ensures Reachable(Now(Told2(true), 0, [Top, Top]))
  {
    hide Reachable;
    BothTold();
    var g2 := System(Told2(false), 0, [Off, Off], map[], map[], {0, 1}, {});
    assert Apply(g2, Starts).workers == [Top, Top];
    Goes(g2, Starts, Now(Told2(true), 0, [Top, Top]));
  }

  /** A worker at the top of next takes the channel, reads the clock and looks. */
  lemma LooksAround(g: System, w: nat, g': System)
    requires Reachable(g) && WellFormed(g) && w < |g.workers| && g.workers[w].Top?
    requires g' == Apply(Worked(g, w, HasClock(g.s.changed, g.clock)), Looks(w))
    ensures Reachable(g')
  {
    hide Reachable, TakeNext;
    var g1 := Worked(g, w, HasChannel(g.s.changed));
    Goes(g, TakesChannel(w), g1);
    var g2 := Worked(g, w, HasClock(g.s.changed, g.clock));
    assert g2 == Worked(g1, w, HasClock(g.s.changed, g.clock));
    Goes(g1, ReadsClock(w), g2);
    Goes(g2, Looks(w), g');
  }

  lemma FirstStarts(s: Sched)
    requires s == Told2(true)
    ensures Indexed(s) && TakeNext(s, 0) == (With(Busy("a"), Waiting("b"), [1], [], 1, 0, 2), Runs(0))
  {
    assert RetryDue(s, 0) == s;
    assert FirstUnheld(s, 0) == 0;
    assert Remove(s.queue, 0) == [1];
    assert Start(s, 0).entries == [Busy("a"), Waiting("b")];
  }

  lemma SecondStarts(s: Sched)
    requires s == With(Busy("a"), Waiting("b"), [1], [], 1, 0, 2)
    ensures Indexed(s) && TakeNext(s, 0) == (With(Busy("a"), Busy("b"), [], [], 2, 0, 2), Runs(1))
  {
    assert RetryDue(s, 0) == s;
    assert FirstUnheld(s, 0) == 0;
    assert Remove(s.queue, 0) == [];
    assert Start(s, 0).entries == [Busy("a"), Busy("b")];
  }

  lemma BothRun()
    ensures Reachable(Now(With(Busy("a"), Busy("b"), [], [], 2, 0, 2), 0, [InJob(0), InJob(1)]))
  {
    hide Reachable, TakeNext;
    Begins();
    var g0 := Now(Told2(true), 0, [Top, Top]);
    FirstStarts(g0.s);
    var g1 := Now(With(Busy("a"), Waiting("b"), [1], [], 1, 0, 2), 0, [InJob(0), Top]);
    LooksAround(g0, 0, g1);
    SecondStarts(g1.s);
    LooksAround(g1, 1, Now(With(Busy("a"), Busy("b"), [], [], 2, 0, 2), 0, [InJob(0), InJob(1)]));
  }

  lemma FirstPauses(s: Sched)
    requires s == With(Busy("a"), Busy("b"), [], [], 2, 0, 2)
    ensures Indexed(s) && Finish(s, 0, -1, JobPaused, 0, 0.0) == With(Paused("a", 1), Busy("b"), [], [0], 1, 1, 3)
  {
  }

  lemma SecondPauses(s: Sched)
    requires s == With(Paused("a", 1), Busy("b"), [], [0], 1, 1, 3)
    ensures Indexed(s)
    ensures Finish(s, 1, -1, JobPaused, 0, 0.0) == With(Paused("a", 1), Paused("b", 2), [], [0, 1], 0, 2, 4)
  {
    hide Settle;
    var s1 := s.(running := 0);
    assert TakeJobMeasure(s1, 1, -1) == s1;
    SecondSettles(s1);
  }

  lemma SecondSettles(s: Sched)
    requires s == With(Paused("a", 1), Busy("b"), [], [0], 0, 1, 3)
    ensures Indexed(s) && Settle(s, 1, JobPaused, 0, 0.0) == With(Paused("a", 1), Paused("b", 2), [], [0, 1], 0, 2, 3)
  {
    var entries := [Paused("a", 1), Paused("b", 2)];
    assert !Before(entries, 1, 0);
    assert PushRetry(entries, [0], 1) == [0] + PushRetry(entries, [], 1);
  }

  lemma OnePauses()
    ensures Reachable(Now(With(Paused("a", 1), Busy("b"), [], [0], 1, 1, 3), 0, [Top, InJob(1)]))
  {
    hide Reachable, Finish;
    BothRun();
    var g0 := Now(With(Busy("a"), Busy("b"), [], [], 2, 0, 2), 0, [InJob(0), InJob(1)]);
    FirstPauses(g0.s);
    var g1 := Now(With(Paused("a", 1), Busy("b"), [], [0], 1, 1, 3), 0, [Top, InJob(1)]);
    assert g1.closing == g0.closing + {2};
    Goes(g0, Finishes(0, -1, JobPaused, 0, 0.0), g1);
  }

  lemma BothPause()
    ensures Reachable(Now(With(Paused("a", 1), Paused("b", 2), [], [0, 1], 0, 2, 4), 0, [Top, Top]))
  {
    hide Reachable, Finish;
    OnePauses();
    var g1 := Now(With(Paused("a", 1), Busy("b"), [], [0], 1, 1, 3), 0, [Top, InJob(1)]);
    SecondPauses(g1.s);
    var g2 := Now(With(Paused("a", 1), Paused("b", 2), [], [0, 1], 0, 2, 4), 0, [Top, Top]);
    assert g2.closing == g1.closing + {3};
    Goes(g1, Finishes(1, -1, JobPaused, 0, 0.0), g2);
  }

  const SLEEPER: Worker := Asleep(4, Some(PAUSE), 5, Some(PAUSE + 5))

  lemma OneLooks()
    ensures Reachable(Now(With(Paused("a", 1), Paused("b", 2), [], [0, 1], 0, 2, 4), 0,
                          [Drowsy(4, 0, Some(PAUSE)), Top]))
  {
    hide Reachable;
    BothPause();
    var s := With(Paused("a", 1), Paused("b", 2), [], [0, 1], 0, 2, 4);
    assert TakeNext(s, 0) == (s, Next.Waits(Some(PAUSE)));
    LooksAround(Now(s, 0, [Top, Top]), 0, Now(s, 0, [Drowsy(4, 0, Some(PAUSE)), Top]));
  }

  lemma OneSleeps()
    ensures Reachable(Now(With(Paused("a", 1), Paused("b", 2), [], [0, 1], 0, 2, 4), PAUSE, [SLEEPER, Top]))
  {
    hide Reachable;
    OneLooks();
    var s := With(Paused("a", 1), Paused("b", 2), [], [0, 1], 0, 2, 4);
    var g1 := Now(s, 0, [Drowsy(4, 0, Some(PAUSE)), Top]);
    var g2 := g1.(clock := 5);
    Goes(g1, Tick(5), g2);
    var g3 := Now(s, 5, [SLEEPER, Top]);
    Goes(g2, FallsAsleep(0), g3);
    Goes(g3, Tick(PAUSE), g3.(clock := PAUSE));
  }

  lemma BothDue(s: Sched)
    requires s == With(Paused("a", 1), Paused("b", 2), [], [0, 1], 0, 2, 4)
    ensures Indexed(s)
    ensures TakeNext(s, PAUSE)
            == (With(Paused("a", 1).(phase := Running), Paused("b", 2).(phase := Queued), [1], [], 1, 2, 4), Runs(0))
  {
    var a, b := Paused("a", 1).(phase := Queued), Paused("b", 2).(phase := Queued);
    var s1 := With(a, Paused("b", 2), [0], [1], 0, 2, 4);
    var s2 := With(a, b, [0, 1], [], 0, 2, 4);
    assert RetryDue(s2, PAUSE) == s2;
    assert Enqueue(s1.(retries := s1.retries[1..]), 1) == s2;
    assert RetryDue(s1, PAUSE) == s2;
    assert Enqueue(s.(retries := s.retries[1..]), 0) == s1;
    assert RetryDue(s, PAUSE) == s2;
    FirstTaken(s2);
  }

  lemma FirstTaken(s: Sched)
    requires s == With(Paused("a", 1).(phase := Queued), Paused("b", 2).(phase := Queued), [0, 1], [], 0, 2, 4)
    ensures Indexed(s) && FirstUnheld(s, 0) == 0
    ensures Start(s, 0) == With(Paused("a", 1).(phase := Running), Paused("b", 2).(phase := Queued), [1], [], 1, 2, 4)
  {
    assert Remove(s.queue, 0) == [1];
  }

  /**
   In a reachable state a user is startable, a worker sleeps on the current
   channel, and nothing that may happen now wakes it: its timer, for a time
   that has come, fires five units later, its lag.
   */
  lemma TimerFiresLate()
    ensures exists g: System ::
              && Reachable(g) && |g.workers| == 2 && g.workers[0].Asleep? && Startable(g.s, 1)
              && g.workers[0].ch == g.s.changed && g.workers[0].due == Some(g.clock) && g.workers[0].lag == 5
              && !Enabled(g, Wakes(0, false)) && !Enabled(g, Closes(g.workers[0].ch))
  {
    hide Reachable, TakeNext;
    OneSleeps();
    var g0 := Now(With(Paused("a", 1), Paused("b", 2), [], [0, 1], 0, 2, 4), PAUSE, [SLEEPER, Top]);
    BothDue(g0.s);
    var g1 := Now(TakeNext(g0.s, PAUSE).0, PAUSE, [SLEEPER, InJob(0)]);
    LooksAround(g0, 1, g1);
    assert 1 in g1.s.queue;
  }
}
