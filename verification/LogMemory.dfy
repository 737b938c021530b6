/**
 The log lines the server keeps in memory (internal/aml/logs.go): two rings
 that refine the whole history of lines, and the paged query over a snapshot.
 */
module LogMemory {
  import opened Common
  import opened Utf8
  import AddSplit

  const LINES_KEPT: nat := 10000
  const EVENTS_KEPT: nat := 500
  const MESSAGE_KEPT: nat := 4096

  /** A line; what a query reads besides its number, level and message is in rest. */
  datatype Event = Event(seqNo: int, level: int, message: Text, rest: string)

  const WARN: int := 4

  /** Go's %: the sign of its left operand. */
  function TruncMod(a: int, n: nat): int
    requires n > 0
  {
    if a >= 0 then a % n else -((-a) % n)
  }

  /** The slot of line i in a ring of n. */
  function Slot(i: int, n: nat): (r: nat)
    requires n > 0
    ensures r < n
  {
    i % n
  }

  /** The slot newestFirst reads for the i-th line from the newest, with n lines kept. */
  function SlotRead(next: nat, i: nat, n: nat): (r: nat)
    requires n > 0
    ensures r < n
  {
    (TruncMod(next - 1 - i, n) + n) % n
  }

  /** The last n of s, the newest first. */
  ghost predicate NewestOf(s: seq<Event>, n: nat, out: seq<Event>) {
    n <= |s| && |out| == n && forall i :: 0 <= i < n ==> out[i] == s[|s| - 1 - i]
  }

  lemma ModShift(total: nat, size: nat)
    requires size > 0
    ensures (total % size + 1) % size == (total + 1) % size
  {
    var q, r := total / size, total % size;
    assert total == q * size + r;
    if r + 1 < size {
      ModIs(total + 1, size, q, r + 1);
    } else {
      assert total + 1 == (q + 1) * size;
      ModIs(total + 1, size, q + 1, 0);
    }
  }

  lemma Multiples(d: int, n: int)
    requires n > 0
    ensures d >= 1 ==> d * n >= n
    ensures d <= -1 ==> d * n <= -n
  {
  }

  lemma ModIs(a: int, n: int, q: int, r: int)
    requires n > 0 && a == q * n + r && 0 <= r < n
    ensures a % n == r
  {
    var d := a / n - q;
    assert a == (a / n) * n + a % n;
    assert d * n == r - a % n;
    Multiples(d, n);
  }

  /** Two numbers less than n apart with one remainder are one. */
  lemma ModApart(a: int, b: int, n: int)
    requires n > 0 && a % n == b % n && -n < a - b < n
    ensures a == b
  {
    var d := a / n - b / n;
    assert a == (a / n) * n + a % n && b == (b / n) * n + b % n;
    assert a - b == d * n;
    Multiples(d, n);
  }

  /** A ring's slots hold the end of the history: the slot of line i is i's remainder. */
  ghost predicate Keeps(size: nat, events: seq<Event>, history: seq<Event>)
    requires size > 0
  {
    && |events| == Min(|history|, size)
    && forall i :: |history| - |events| <= i < |history| ==> events[Slot(i, size)] == history[i]
  }

  lemma KeptCount(size: nat, events: seq<Event>, history: seq<Event>)
    requires size > 0 && Keeps(size, events, history)
    ensures |events| == Min(|history|, size)
  {
  }

  lemma NextSlot(total: nat, size: nat)
    requires size > 0
    ensures (Slot(total, size) + 1) % size == Slot(total + 1, size)
  {
    ModShift(total, size);
  }

  /** Numbers below the size are their own slots. */
  lemma OwnSlot(i: nat, size: nat)
    requires i < size
    ensures Slot(i, size) == i
  {
    ModIs(i, size, 0, i);
  }

  lemma KeepsMore(size: nat, events: seq<Event>, history: seq<Event>, event: Event)
    requires size > 0 && Keeps(size, events, history) && |events| < size
    ensures Keeps(size, events + [event], history + [event])
  {
    hide Slot;
    forall i | 0 <= i < |history| + 1
      ensures Slot(i, size) == i
    {
      OwnSlot(i, size);
    }
  }

  /** Two of the last lines, as many as there are slots, are in different slots. */
  lemma OtherSlot(i: nat, j: nat, size: nat)
    requires size > 0 && i < j < i + size
    ensures Slot(i, size) != Slot(j, size)
  {
    if i % size == j % size {
      ModApart(i, j, size);
    }
  }

  lemma KeepsNewest(size: nat, events: seq<Event>, history: seq<Event>, event: Event)
    requires size > 0 && Keeps(size, events, history) && |events| == size
    ensures Keeps(size, events[Slot(|history|, size) := event], history + [event])
  {
    hide Slot;
    forall i | |history| + 1 - size <= i < |history|
      ensures Slot(i, size) != Slot(|history|, size)
    {
      OtherSlot(i, |history|, size);
    }
  }

  class Ring {
    const size: nat
    var events: seq<Event>
    var next: nat
    var total: nat
    ghost var history: seq<Event>

    /** The slot of line i is i's remainder, for the lines kept. */
    ghost predicate Valid()
      reads this
    {
      size > 0 && total == |history| && next == Slot(total, size) && Keeps(size, events, history)
    }

    constructor (size: nat)
      requires size > 0
      ensures Valid() && this.size == size && history == []
    {
      this.size := size;
      events, next, total, history := [], 0, 0, [];
    }

    method Add(event: Event)
      requires Valid()
      modifies this
      ensures Valid() && history == old(history) + [event]
    {
      hide Slot, Keeps;
      KeptCount(size, events, history);
      if |events| < size {
        KeepsMore(size, events, history, event);
        events := events + [event];
      } else {
        KeepsNewest(size, events, history, event);
        events := events[next := event];
      }
      NextSlot(total, size);
      next := (next + 1) % size;
      total := total + 1;
      history := history + [event];
    }

    /** The kept events, the newest first: the end of the history, reversed. */
    method NewestFirst() returns (out: seq<Event>)
      requires Valid()
      ensures NewestOf(history, if |history| < size then |history| else size, out)
    {
      hide Slot, SlotRead;
      var n := |events|;
      out := [];
      while |out| < n
        invariant |out| <= n
        invariant forall i :: 0 <= i < |out| ==> out[i] == history[total - 1 - i]
      {
        var i := |out|;
        SlotOf(total, size, n, i);
        out := out + [events[SlotRead(next, i, n)]];
      }
    }
  }

  /** The slot newestFirst reads is the slot of the i-th line from the end. */
  lemma SlotOf(total: nat, size: nat, n: nat, i: nat)
    requires size > 0 && n == (if total < size then total else size) && i < n
    ensures SlotRead(Slot(total, size), i, n) == Slot(total - 1 - i, size)
  {
    hide Slot, SlotRead;
    if total < size {
      ReadShort(total, size, i);
    } else {
      ReadFull(total, size, i);
    }
  }

  /** A ring that is not full: the lines are in its first slots. */
  lemma ReadShort(total: nat, size: nat, i: nat)
    requires i < total < size
    ensures SlotRead(Slot(total, size), i, total) == Slot(total - 1 - i, size)
  {
    var a := total - 1 - i;
    ModIs(total, size, 0, total);
    ModIs(a, total, 0, a);
    ModIs(a + total, total, 1, a);
    ModIs(a, size, 0, a);
  }

  /** The slot read in a full ring, from where the next line goes. */
  lemma ReadBack(next: nat, size: nat, i: nat)
    requires next < size && i < size
    ensures SlotRead(next, i, size) == if next - 1 - i >= 0 then next - 1 - i else next - 1 - i + size
  {
    var a := next - 1 - i;
    if a >= 0 {
      ModIs(a, size, 0, a);
      ModIs(a + size, size, 1, a);
    } else if -a == size {
      ModIs(-a, size, 1, 0);
      ModIs(size, size, 1, 0);
    } else {
      ModIs(-a, size, 0, -a);
      ModIs(a + size, size, 0, a + size);
    }
  }

  lemma ReadFull(total: nat, size: nat, i: nat)
    requires size > 0 && total >= size && i < size
    ensures SlotRead(Slot(total, size), i, size) == Slot(total - 1 - i, size)
  {
    hide SlotRead;
    var q, next := total / size, total % size;
    ReadBack(next, size, i);
    assert total == q * size + next;
    var a := next - 1 - i;
    if a >= 0 {
      ModIs(total - 1 - i, size, q, a);
    } else {
      assert total - 1 - i == (q - 1) * size + (a + size);
      ModIs(total - 1 - i, size, q - 1, a + size);
    }
  }

  // ---- the two rings ----

  const ELLIPSIS: Text := [0xE2, 0x80, 0xA6]

  /** A long message is cut at a character and marked. */
  function Shorten(message: Text): Text {
    if |message| > MESSAGE_KEPT then message[..AddSplit.StartBefore(message, MESSAGE_KEPT)] + ELLIPSIS else message
  }

  method ShortenMessage(message: Text) returns (text: Text)
    ensures text == Shorten(message)
  {
    text := message;
    if |message| > MESSAGE_KEPT {
      var cut: nat := MESSAGE_KEPT;
      while cut > 0 && !RuneStart(message[cut])
        invariant cut <= MESSAGE_KEPT
        invariant AddSplit.StartBefore(message, cut) == AddSplit.StartBefore(message, MESSAGE_KEPT)
      {
        cut := cut - 1;
      }
      text := message[..cut] + ELLIPSIS;
    }
  }

  /** A message that fits stays; a longer one is its longest valid beginning that fits, and an ellipsis. */
  lemma ShortenValid(message: Text)
    requires Valid(message)
    ensures |message| <= MESSAGE_KEPT ==> Shorten(message) == message
    ensures |message| > MESSAGE_KEPT ==>
              exists cut :: && MESSAGE_KEPT - 3 <= cut <= MESSAGE_KEPT && Shorten(message) == message[..cut] + ELLIPSIS
                            && Valid(message[..cut]) && forall k :: cut < k <= MESSAGE_KEPT ==> !RuneStart(message[k])
    ensures Valid(Shorten(message)) && |Shorten(message)| <= MESSAGE_KEPT + 3
  {
    if |message| > MESSAGE_KEPT {
      AddSplit.StartBeforeValid(message, MESSAGE_KEPT);
      assert CharLen(ELLIPSIS) == 3 && ELLIPSIS[3..] == [];
      assert Valid(ELLIPSIS);
      ValidConcat(message[..AddSplit.StartBefore(message, MESSAGE_KEPT)], ELLIPSIS);
    }
  }

  /** The warnings among the lines, in order. */
  function Warnings(s: seq<Event>): seq<Event> {
    if s == [] then []
    else Warnings(s[..|s| - 1]) + if s[|s| - 1].level >= WARN then [s[|s| - 1]] else []
  }

  /** Numbered from 1 in the order they came. */
  ghost predicate Numbered(s: seq<Event>) {
    forall i :: 0 <= i < |s| ==> s[i].seqNo == i + 1
  }

  ghost predicate Increasing(s: seq<Event>) {
    forall i, j :: 0 <= i < j < |s| ==> s[i].seqNo < s[j].seqNo
  }

  lemma {:induction false} WarningsIncrease(s: seq<Event>)
    requires Numbered(s)
    ensures Increasing(Warnings(s)) && forall i :: 0 <= i < |Warnings(s)| ==> 1 <= Warnings(s)[i].seqNo <= |s|
    ensures forall e :: e in Warnings(s) <==> e in s && e.level >= 4
  {
    if s != [] {
      WarningsIncrease(s[..|s| - 1]);
      assert s == s[..|s| - 1] + [s[|s| - 1]];
    }
  }

  lemma OneMoreLine(s: seq<Event>, e: Event)
    requires Numbered(s) && e.seqNo == |s| + 1
    ensures Numbered(s + [e]) && Warnings(s + [e]) == Warnings(s) + if e.level >= WARN then [e] else []
  {
    assert (s + [e])[..|s|] == s;
  }

  class LineMemory {
    const lines: Ring
    const warnings: Ring

    ghost predicate Valid()
      reads this, lines, warnings
    {
      && lines != warnings && lines.Valid() && warnings.Valid()
      && lines.size == LINES_KEPT && warnings.size == EVENTS_KEPT
      && Numbered(lines.history) && warnings.history == Warnings(lines.history)
    }

    constructor ()
      ensures Valid() && lines.history == [] && fresh(lines) && fresh(warnings)
    {
      lines := new Ring(LINES_KEPT);
      warnings := new Ring(EVENTS_KEPT);
    }

    method Add(level: int, message: Text, rest: string)
      requires Valid()
      modifies lines, warnings
      ensures Valid()
      ensures lines.history == old(lines.history) + [Event(|old(lines.history)| + 1, level, Shorten(message), rest)]
    {
      hide Slot, Shorten;
      var text := ShortenMessage(message);
      var event := Event(lines.total + 1, level, text, rest);
      OneMoreLine(lines.history, event);
      lines.Add(event);
      if level >= WARN {
        warnings.Add(event);
      }
    }

    /** The lines a query at level reads: the end of the history of all lines, or of the warnings, reversed. */
    method Kept(level: int) returns (out: seq<Event>, size: nat, total: nat)
      requires Valid()
      ensures size == if level < WARN then LINES_KEPT else EVENTS_KEPT
      ensures total == if level < WARN then |lines.history| else |Warnings(lines.history)|
      ensures level < WARN ==> NewestOf(lines.history, Min(|lines.history|, LINES_KEPT), out)
      ensures level >= WARN ==> NewestOf(Warnings(lines.history), Min(|Warnings(lines.history)|, EVENTS_KEPT), out)
      ensures Decreasing(out)
    {
      WarningsIncrease(lines.history);
      if level >= WARN {
        out := warnings.NewestFirst();
        size, total := warnings.size, warnings.total;
      } else {
        out := lines.NewestFirst();
        size, total := lines.size, lines.total;
      }
    }
  }

  function Min(a: nat, b: nat): nat {
    if a < b then a else b
  }

  // ---- the query ----

  ghost predicate Decreasing(s: seq<Event>) {
    && (forall i, j :: 0 <= i < j < |s| ==> s[i].seqNo > s[j].seqNo)
    && (forall i :: 0 <= i < |s| ==> s[i].seqNo >= 1)
  }

  /** What a query asks for, its level, terms and duration one test. */
  datatype Query = Query(matches: Event -> bool, before: int, after: int, limit: nat)

  /** The lines q is about, of those given: matching, below before and above after when they are set. */
  function Wanted(q: Query, lines: seq<Event>): seq<Event> {
    if lines == [] then []
    else (if Wants(q, lines[0]) then [lines[0]] else []) + Wanted(q, lines[1..])
  }

  predicate Wants(q: Query, e: Event) {
    (q.before > 0 ==> e.seqNo < q.before) && (q.after > 0 ==> e.seqNo > q.after) && q.matches(e)
  }

  method Find(q: Query, lines: seq<Event>) returns (found: seq<Event>, more: bool, skipped: nat)
    requires Decreasing(lines)
    ensures found == Wanted(q, lines)[..Min(q.limit, |Wanted(q, lines)|)]
    ensures q.after == 0 ==> skipped == 0 && (more <==> |Wanted(q, lines)| > q.limit)
    ensures q.after != 0 ==> !more && |found| + skipped == |Wanted(q, lines)|
  {
    hide Wanted, Decreasing;
    found, more, skipped := [], false, 0;
    ghost var seen: seq<Event> := [];
    var i := 0;
    assert lines[0..] == lines;
    while i < |lines|
      invariant i <= |lines| && !more && Wanted(q, lines) == seen + Wanted(q, lines[i..])
      invariant found == seen[..Min(q.limit, |seen|)] && |found| + skipped == |seen|
      invariant q.after == 0 ==> skipped == 0
    {
      var event := lines[i];
      WantedNext(q, lines, i);
      if q.after > 0 && event.seqNo <= q.after {
        NothingAfter(q, lines, i);
        return;
      }
      if (q.before > 0 && event.seqNo >= q.before) || !q.matches(event) {
        i := i + 1;
        continue;
      }
      ghost var rest := Wanted(q, lines[i + 1..]);
      assert seen + ([event] + rest) == seen + [event] + rest;
      if |found| < q.limit {
        found := found + [event];
      } else if q.after == 0 {
        return found, true, 0;
      } else {
        skipped := skipped + 1;
      }
      seen := seen + [event];
      i := i + 1;
    }
    WantedNone(q, lines[i..]);
  }

  lemma WantedNext(q: Query, lines: seq<Event>, i: nat)
    requires i < |lines|
    ensures Wanted(q, lines[i..]) == (if Wants(q, lines[i]) then [lines[i]] else []) + Wanted(q, lines[i + 1..])
    ensures !Wants(q, lines[i]) ==> Wanted(q, lines[i..]) == Wanted(q, lines[i + 1..])
  {
    assert lines[i..][1..] == lines[i + 1..];
  }

  lemma WantedNone(q: Query, lines: seq<Event>)
    requires lines == []
    ensures Wanted(q, lines) == []
  {
  }

  lemma NothingAfter(q: Query, lines: seq<Event>, i: nat)
    requires Decreasing(lines) && i < |lines| && q.after > 0 && lines[i].seqNo <= q.after
    ensures Wanted(q, lines[i..]) == []
  {
    NoneWanted(q, lines[i..]);
  }

  lemma {:induction false} NoneWanted(q: Query, lines: seq<Event>)
    requires forall j :: 0 <= j < |lines| ==> !Wants(q, lines[j])
    ensures Wanted(q, lines) == []
  {
    if lines != [] {
      NoneWanted(q, lines[1..]);
    }
  }

  // ---- paging ----

  /** The lines a client gets by asking, page after page, for what is below the last line it got. */
  function Pages(q: Query, lines: seq<Event>): seq<Event>
    requires q.limit > 0 && q.after == 0 && Decreasing(lines)
    decreases |Wanted(q, lines)|
  {
    var all := Wanted(q, lines);
    if |all| <= q.limit then all
    else
      var page := all[..q.limit];
      WantedBelow(q, lines, q.limit - 1);
      page + Pages(q.(before := page[q.limit - 1].seqNo), lines)
  }

  /** What a query is about: the lines that match, older than before and newer than after, newest first. */
  lemma WantedIs(q: Query, lines: seq<Event>)
    requires Decreasing(lines)
    ensures Decreasing(Wanted(q, lines))
    ensures forall e :: e in Wanted(q, lines) <==>
              e in lines && q.matches(e) && (q.before <= 0 || e.seqNo < q.before) && (q.after <= 0 || e.seqNo > q.after)
  {
    WantedDecreases(q, lines);
  }

  lemma {:induction false} WantedDecreases(q: Query, lines: seq<Event>)
    requires Decreasing(lines)
    ensures Decreasing(Wanted(q, lines)) && forall e :: e in Wanted(q, lines) <==> e in lines && Wants(q, e)
  {
    if lines != [] {
      WantedDecreases(q, lines[1..]);
      var r := Wanted(q, lines[1..]);
      forall j | 0 <= j < |r|
        ensures lines[0].seqNo > r[j].seqNo
      {
        assert r[j] in lines[1..];
      }
      forall e
        ensures e in Wanted(q, lines) <==> e in lines && Wants(q, e)
      {
        assert e in lines <==> e == lines[0] || e in lines[1..];
      }
    }
  }

  lemma AfterIsBelow(s: seq<Event>, k: nat, e: Event)
    requires Decreasing(s) && k < |s|
    ensures e in s[k + 1..] <==> e in s && e.seqNo < s[k].seqNo
  {
    if e in s && e.seqNo < s[k].seqNo {
      var j :| 0 <= j < |s| && s[j] == e;
      assert s[k + 1..][j - k - 1] == e;
    }
    if e in s[k + 1..] {
      var j :| 0 <= j < |s| - k - 1 && s[k + 1..][j] == e;
      assert s[k + 1 + j] == e;
    }
  }

  /** What is below the k-th line wanted is what is wanted after it. */
  lemma WantedBelow(q: Query, lines: seq<Event>, k: nat)
    requires Decreasing(lines) && k < |Wanted(q, lines)|
    ensures Wanted(q.(before := Wanted(q, lines)[k].seqNo), lines) == Wanted(q, lines)[k + 1..]
  {
    hide Wanted;
    var all := Wanted(q, lines);
    var q' := q.(before := all[k].seqNo);
    WantedDecreases(q, lines);
    WantedDecreases(q', lines);
    assert all[k] in all;
    assert forall e :: Wants(q', e) <==> Wants(q, e) && e.seqNo < all[k].seqNo;
    forall e
      ensures e in Wanted(q', lines) <==> e in all[k + 1..]
    {
      AfterIsBelow(all, k, e);
    }
    DecreasingUnique(Wanted(q', lines), all[k + 1..]);
  }

  lemma {:induction false} DecreasingUnique(s: seq<Event>, t: seq<Event>)
    requires Decreasing(s) && Decreasing(t) && forall e :: e in s <==> e in t
    ensures s == t
  {
    if s != [] && t != [] {
      assert s[0] in t && t[0] in s;
      assert s[0].seqNo == t[0].seqNo;
      forall e
        ensures e in s[1..] <==> e in t[1..]
      {
        assert e in s[1..] <==> e in s && e != s[0];
        assert e in t[1..] <==> e in t && e != t[0];
      }
      DecreasingUnique(s[1..], t[1..]);
    } else {
      Emptiness(s);
      Emptiness(t);
    }
  }

  lemma Emptiness(s: seq<Event>)
    ensures s == [] || s[0] in s
  {
  }

  /** Over a snapshot, the pages are every line wanted, once, in order. */
  lemma {:induction false} PagesAreAll(q: Query, lines: seq<Event>)
    requires q.limit > 0 && q.after == 0 && Decreasing(lines)
    ensures Pages(q, lines) == Wanted(q, lines)
    decreases |Wanted(q, lines)|
  {
    var all := Wanted(q, lines);
    if |all| > q.limit {
      WantedBelow(q, lines, q.limit - 1);
      var rest := q.(before := all[q.limit - 1].seqNo);
      PagesAreAll(rest, lines);
      assert all == all[..q.limit] + all[q.limit..];
    }
  }
}
