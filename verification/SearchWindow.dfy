/**
 The ten-minute window of Searches (internal/aml/metrics.go, searchWindow)
 against the history of what it was told. A time is its Unix minute.
 */
module SearchWindow {
  import LogMemory

  const MINUTES: nat := 10

  datatype Recorded = Answered(minute: int) | Partly(minute: int)

  /** The bucket of a minute. */
  function Bucket(minute: int): (i: nat)
    ensures i < MINUTES
  {
    (LogMemory.TruncMod(minute, MINUTES) + MINUTES) % MINUTES
  }

  /** The bucket of a minute, as bucketLocked computes it. */
  method BucketOf(minute: int) returns (i: nat)
    ensures i == Bucket(minute) && i == minute % MINUTES
  {
    i := (LogMemory.TruncMod(minute, MINUTES) + MINUTES) % MINUTES;
    BucketIs(minute);
  }

  lemma BucketIs(minute: int)
    ensures Bucket(minute) == minute % MINUTES
  {
  }

  /** How many of the history are of this kind, in this minute. */
  function CountAt(h: seq<Recorded>, answered: bool, minute: int): nat {
    if h == [] then 0
    else CountAt(h[..|h| - 1], answered, minute)
         + if h[|h| - 1].Answered? == answered && h[|h| - 1].minute == minute then 1 else 0
  }

  /** How many are of this kind, in the current minute or the nine before it. */
  function CountLast(h: seq<Recorded>, answered: bool, now: int): nat {
    if h == [] then 0
    else CountLast(h[..|h| - 1], answered, now)
         + if h[|h| - 1].Answered? == answered && now - MINUTES < h[|h| - 1].minute <= now then 1 else 0
  }

  /** Those of them that fall into one bucket. */
  function CountIn(h: seq<Recorded>, answered: bool, now: int, bucket: nat): nat {
    if h == [] then 0
    else CountIn(h[..|h| - 1], answered, now, bucket)
         + if h[|h| - 1].Answered? == answered && now - MINUTES < h[|h| - 1].minute <= now
             && Bucket(h[|h| - 1].minute) == bucket
           then 1 else 0
  }

  function SumIn(h: seq<Recorded>, answered: bool, now: int, n: nat): nat {
    if n == 0 then 0 else SumIn(h, answered, now, n - 1) + CountIn(h, answered, now, n - 1)
  }

  lemma {:induction false} SumStep(h: seq<Recorded>, answered: bool, now: int, n: nat)
    requires h != []
    ensures var e := h[|h| - 1];
            SumIn(h, answered, now, n) == SumIn(h[..|h| - 1], answered, now, n)
              + if e.Answered? == answered && now - MINUTES < e.minute <= now && Bucket(e.minute) < n then 1 else 0
  {
    if n > 0 {
      SumStep(h, answered, now, n - 1);
    }
  }

  /** The buckets share the window's history out among them. */
  lemma {:induction false} BucketsShare(h: seq<Recorded>, answered: bool, now: int)
    ensures SumIn(h, answered, now, MINUTES) == CountLast(h, answered, now)
  {
    if h == [] {
      NoneIn(answered, now, MINUTES);
    } else {
      BucketsShare(h[..|h| - 1], answered, now);
      SumStep(h, answered, now, MINUTES);
    }
  }

  lemma {:induction false} NoneIn(answered: bool, now: int, n: nat)
    ensures SumIn([], answered, now, n) == 0
  {
    if n > 0 {
      NoneIn(answered, now, n - 1);
    }
  }

  /** A bucket last counted for minute m: no event of the history falls into it later than m. */
  ghost predicate UpTo(h: seq<Recorded>, bucket: nat, m: int) {
    forall k :: 0 <= k < |h| && Bucket(h[k].minute) == bucket ==> h[k].minute <= m
  }

  /** What a bucket holds is its share, if its minute is in the window; else its share is nothing. */
  lemma {:induction false} Share(h: seq<Recorded>, answered: bool, now: int, bucket: nat, m: int)
    requires UpTo(h, bucket, m) && m <= now && Bucket(m) == bucket
    ensures CountIn(h, answered, now, bucket) == if now - m < MINUTES then CountAt(h, answered, m) else 0
  {
    if h != [] {
      var e := h[|h| - 1];
      Share(h[..|h| - 1], answered, now, bucket, m);
      BucketIs(e.minute);
      BucketIs(m);
      if Bucket(e.minute) == bucket && now - MINUTES < e.minute {
        LogMemory.ModApart(e.minute, m, MINUTES);
      }
    }
  }

  lemma {:induction false} NoShare(h: seq<Recorded>, answered: bool, now: int, bucket: nat)
    requires forall k :: 0 <= k < |h| ==> Bucket(h[k].minute) != bucket
    ensures CountIn(h, answered, now, bucket) == 0
  {
    if h != [] {
      NoShare(h[..|h| - 1], answered, now, bucket);
    }
  }

  lemma {:induction false} NoneAt(h: seq<Recorded>, answered: bool, minute: int)
    requires forall k :: 0 <= k < |h| ==> h[k].minute != minute
    ensures CountAt(h, answered, minute) == 0
  {
    if h != [] {
      NoneAt(h[..|h| - 1], answered, minute);
    }
  }

  /** A bucket: never counted into, or counting its minute, the last any event of it had. */
  ghost predicate BucketOk(h: seq<Recorded>, i: nat, minute: int, served: int, partially: int) {
    || (Untouched(h, i) && served == 0 && partially == 0)
    || (&& Bucket(minute) == i && UpTo(h, i, minute)
        && served == CountAt(h, true, minute) && partially == CountAt(h, false, minute))
  }

  /** No event of the history falls into the bucket. */
  ghost predicate Untouched(h: seq<Recorded>, i: nat) {
    forall k :: 0 <= k < |h| ==> Bucket(h[k].minute) != i
  }

  class Window {
    const minute: array<int>
    const served: array<int>
    const partially: array<int>
    ghost var history: seq<Recorded>
    ghost var clock: int

    ghost predicate Valid()
      reads this, minute, served, partially
    {
      && minute.Length == served.Length == partially.Length == MINUTES
      && minute != served && minute != partially && served != partially
      && (forall k :: 0 <= k < |history| ==> history[k].minute <= clock)
      && (forall i :: 0 <= i < MINUTES ==> BucketOk(history, i, minute[i], served[i], partially[i]))
      && (forall i :: 0 <= i < MINUTES ==> minute[i] <= clock || Untouched(history, i))
    }

    constructor ()
      ensures Valid() && history == [] && fresh(minute) && fresh(served) && fresh(partially)
    {
      minute := new int[MINUTES](_ => 0);
      served := new int[MINUTES](_ => 0);
      partially := new int[MINUTES](_ => 0);
      history, clock := [], 0;
    }

    /** bucketLocked, with the clock read at now, no earlier than before. */
    method BucketLocked(now: int) returns (i: nat)
      requires Valid() && (history == [] || now >= clock)
      modifies this`clock, minute, served, partially
      ensures Valid() && clock == now && i == Bucket(now) && minute[i] == now
      ensures UpTo(history, i, now) && served[i] == CountAt(history, true, now)
      ensures partially[i] == CountAt(history, false, now)
    {
      hide CountAt, Bucket;
      i := BucketOf(now);
      if minute[i] != now {
        Emptied(history, i, minute[i], served[i], partially[i], now);
        minute[i], served[i], partially[i] := now, 0, 0;
      } else {
        Current(history, i, now, served[i], partially[i]);
      }
      clock := now;
    }

    method RecordAnswered(now: int)
      requires Valid() && (history == [] || now >= clock)
      modifies this`history, this`clock, minute, served, partially
      ensures Valid() && history == old(history) + [Answered(now)] && clock == now
    {
      hide CountAt, Bucket, BucketOk, UpTo;
      var i := BucketLocked(now);
      Recording(Answered(now));
      served[i] := served[i] + 1;
      history := history + [Answered(now)];
    }

    method RecordPartly(now: int)
      requires Valid() && (history == [] || now >= clock)
      modifies this`history, this`clock, minute, served, partially
      ensures Valid() && history == old(history) + [Partly(now)] && clock == now
    {
      hide CountAt, Bucket, BucketOk, UpTo;
      var i := BucketLocked(now);
      Recording(Partly(now));
      partially[i] := partially[i] + 1;
      history := history + [Partly(now)];
    }

    /** What counting an event of the current minute in its bucket comes to. */
    lemma Recording(e: Recorded)
      requires Valid() && e.minute == clock && minute[Bucket(clock)] == clock
      requires var i := Bucket(clock);
               && UpTo(history, i, clock)
               && served[i] == CountAt(history, true, clock) && partially[i] == CountAt(history, false, clock)
      ensures forall i :: 0 <= i < MINUTES && i != Bucket(clock) ==>
                BucketOk(history + [e], i, minute[i], served[i], partially[i])
      ensures forall i :: 0 <= i < MINUTES && i != Bucket(clock) ==> minute[i] <= clock || Untouched(history + [e], i)
      ensures var i := Bucket(clock);
              BucketOk(history + [e], i, clock, served[i] + (if e.Answered? then 1 else 0),
                       partially[i] + if e.Answered? then 0 else 1)
    {
      hide CountAt, Bucket, BucketOk, UpTo;
      OneMoreHere(history, e, served[Bucket(clock)], partially[Bucket(clock)]);
      forall i | 0 <= i < MINUTES && i != Bucket(clock)
        ensures BucketOk(history + [e], i, minute[i], served[i], partially[i])
      {
        OneMore(history, e, i, minute[i], served[i], partially[i]);
      }
    }

    /** totals: what was recorded in the current minute and the nine before it. */
    method Totals(now: int) returns (answered: int, partly: int)
      requires Valid() && (history == [] || now >= clock)
      modifies this`clock, minute, served, partially
      ensures Valid() && clock == now
      ensures answered == CountLast(history, true, now) && partly == CountLast(history, false, now)
    {
      hide CountAt, Bucket, BucketOk, UpTo, CountIn;
      var b := BucketLocked(now);
      answered, partly := 0, 0;
      var i := 0;
      while i < MINUTES
        invariant i <= MINUTES && Valid() && clock == now
        invariant answered == SumIn(history, true, now, i) && partly == SumIn(history, false, now, i)
      {
        BucketShare(history, i, minute[i], served[i], partially[i], now);
        if now - minute[i] < MINUTES {
          answered, partly := answered + served[i], partly + partially[i];
        }
        i := i + 1;
      }
      BucketsShare(history, true, now);
      BucketsShare(history, false, now);
    }
  }

  /** A bucket whose minute is not the current one has counted nothing of the current one. */
  lemma Emptied(h: seq<Recorded>, i: nat, m: int, served: int, partially: int, now: int)
    requires BucketOk(h, i, m, served, partially) && Bucket(now) == i && m != now
    requires forall k :: 0 <= k < |h| ==> h[k].minute <= now
    requires Untouched(h, i) || m <= now
    ensures UpTo(h, i, now) && CountAt(h, true, now) == 0 && CountAt(h, false, now) == 0
  {
    forall k | 0 <= k < |h|
      ensures h[k].minute != now
    {
    }
    NoneAt(h, true, now);
    NoneAt(h, false, now);
  }

  /** A bucket at the current minute counts it. */
  lemma Current(h: seq<Recorded>, i: nat, now: int, served: int, partially: int)
    requires BucketOk(h, i, now, served, partially) && Bucket(now) == i
    requires forall k :: 0 <= k < |h| ==> h[k].minute <= now
    ensures UpTo(h, i, now) && served == CountAt(h, true, now) && partially == CountAt(h, false, now)
  {
    if Untouched(h, i) {
      forall k | 0 <= k < |h|
        ensures h[k].minute != now
      {
      }
      NoneAt(h, true, now);
      NoneAt(h, false, now);
    }
  }

  /** One more event changes only its own bucket's counts, by one. */
  lemma OneMore(h: seq<Recorded>, e: Recorded, i: nat, m: int, served: int, partially: int)
    requires BucketOk(h, i, m, served, partially) && Bucket(e.minute) != i
    ensures BucketOk(h + [e], i, m, served, partially)
  {
    var h' := h + [e];
    assert h'[..|h|] == h;
    if Bucket(m) == i {
      assert e.minute != m;
    }
  }

  lemma OneMoreHere(h: seq<Recorded>, e: Recorded, served: int, partially: int)
    requires UpTo(h, Bucket(e.minute), e.minute) && served == CountAt(h, true, e.minute)
    requires partially == CountAt(h, false, e.minute)
    ensures BucketOk(h + [e], Bucket(e.minute), e.minute,
                     served + if e.Answered? then 1 else 0, partially + if e.Answered? then 0 else 1)
  {
    var h' := h + [e];
    assert h'[..|h|] == h;
  }

  /** What totals adds for a bucket is its share of the window. */
  lemma BucketShare(h: seq<Recorded>, i: nat, m: int, served: int, partially: int, now: int)
    requires BucketOk(h, i, m, served, partially) && (m <= now || Untouched(h, i))
    ensures CountIn(h, true, now, i) == if now - m < MINUTES then served else 0
    ensures CountIn(h, false, now, i) == if now - m < MINUTES then partially else 0
  {
    if Untouched(h, i) {
      NoShare(h, true, now, i);
      NoShare(h, false, now, i);
      if !(served == 0 && partially == 0) {
        NoneAt(h, true, m);
        NoneAt(h, false, m);
      }
    } else {
      Share(h, true, now, i, m);
      Share(h, false, now, i, m);
    }
  }
}
