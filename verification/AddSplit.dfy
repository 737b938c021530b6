/**
 The Add splitter (internal/aml/contract.go): a long message is cut into
 pieces at character boundaries, and the messages are grouped into parts
 within a bound of bytes and one of messages.
 */
module AddSplit {
  import opened Common
  import opened Utf8

  const PART_BYTES: nat := 90000
  const MAX_BYTES: nat := 100000
  const MAX_MESSAGES: nat := 10000

  // ---- splitText ----

  /** The last place at or before i where a character starts. */
  function StartBefore(s: Text, i: nat): (j: nat)
    requires i < |s|
    ensures j <= i && (j == 0 || RuneStart(s[j])) && forall k :: j < k <= i ==> !RuneStart(s[k])
  {
    if i == 0 || RuneStart(s[i]) then i else StartBefore(s, i - 1)
  }

  lemma StartBeforeValid(s: Text, limit: nat)
    requires Valid(s) && limit < |s|
    ensures var c := StartBefore(s, limit);
            RuneStart(s[c]) && Valid(s[..c]) && Valid(s[c..]) && limit <= c + 3
  {
    var j := StartNearby(s, limit);
    var c := StartBefore(s, limit);
    assert j <= c;
    if c == 0 {
      assert s[0..] == s;
      BoundaryIsStart(s, 0);
    }
    StartIsBoundary(s, c);
  }

  /** Where a text longer than limit is cut. */
  function Cut(s: Text, limit: nat): (c: nat)
    requires Valid(s) && limit < |s|
    ensures c <= limit
  {
    StartBeforeValid(s, limit);
    var c := StartBefore(s, limit);
    var space := LastSpace(s[..c]);
    if space > limit / 2 then space else c
  }

  lemma CutValid(s: Text, limit: nat)
    requires Valid(s) && limit < |s|
    ensures Valid(s[..Cut(s, limit)]) && Valid(s[Cut(s, limit)..]) && (limit >= 4 ==> Cut(s, limit) > 0)
  {
    StartBeforeValid(s, limit);
    var c := StartBefore(s, limit);
    var space := LastSpace(s[..c]);
    if space > limit / 2 {
      LastSpaceIs(s[..c]);
      assert s[..c][space] == s[space];
      StartIsBoundary(s, space);
    }
  }

  /**
   The cut is at the last white space of the second half, before the last
   boundary within the limit, and at that boundary when there is none.
   */
  lemma CutIs(s: Text, limit: nat)
    requires Valid(s) && limit < |s|
    ensures var c := StartBefore(s, limit);
            var cut := Cut(s, limit);
            || (cut == c && forall i :: limit / 2 < i < c ==> !SpaceAt(s[..c], i))
            || (limit / 2 < cut < c && SpaceAt(s[..c], cut) && forall i :: cut < i < c ==> !SpaceAt(s[..c], i))
  {
    StartBeforeValid(s, limit);
    LastSpaceIs(s[..StartBefore(s, limit)]);
  }

  /** The cuts of a text: all of it, in order, before the blank ones are dropped. */
  function Cuts(s: Text, limit: nat): seq<Text>
    requires Valid(s) && limit >= 4
    decreases |s|
  {
    if |s| <= limit then [s]
    else
      CutValid(s, limit);
      [s[..Cut(s, limit)]] + Cuts(s[Cut(s, limit)..], limit)
  }

  function NotBlank(cuts: seq<Text>): seq<Text> {
    if cuts == [] then []
    else (if Blank(cuts[0]) then [] else [cuts[0]]) + NotBlank(cuts[1..])
  }

  function Join(cuts: seq<Text>): Text {
    if cuts == [] then [] else cuts[0] + Join(cuts[1..])
  }

  /** Where splitText cuts a text longer than its limit. */
  method FindCut(text: Text, limit: nat) returns (cut: nat)
    requires Valid(text) && limit < |text|
    ensures cut == Cut(text, limit)
  {
    hide Valid, CharLen, LastSpace;
    cut := limit;
    while cut > 0 && !RuneStart(text[cut])
      invariant cut <= limit && StartBefore(text, cut) == StartBefore(text, limit)
    {
      cut := cut - 1;
    }
    StartBeforeValid(text, limit);
    var space := LastSpace(text[..cut]);
    if space > limit / 2 {
      cut := space;
    }
  }

  method SplitText(text: Text, limit: nat) returns (pieces: seq<Text>)
    requires Valid(text) && limit >= 4
    ensures pieces == NotBlank(Cuts(text, limit))
  {
    hide Valid, Blank, Cut, Cuts, NotBlank;
    pieces := [];
    var rest := text;
    while |rest| > limit
      invariant Valid(rest) && pieces + NotBlank(Cuts(rest, limit)) == NotBlank(Cuts(text, limit))
      decreases |rest|
    {
      var cut := FindCut(rest, limit);
      CutsFirst(rest, limit);
      if !Blank(rest[..cut]) {
        pieces := pieces + [rest[..cut]];
      }
      rest := rest[cut..];
    }
    CutsLast(rest, limit);
    if !Blank(rest) {
      pieces := pieces + [rest];
    }
  }

  lemma CutsFirst(s: Text, limit: nat)
    requires Valid(s) && 4 <= limit < |s|
    ensures var c := Cut(s, limit);
            && 0 < c <= |s| && Valid(s[c..])
            && NotBlank(Cuts(s, limit)) == (if Blank(s[..c]) then [] else [s[..c]]) + NotBlank(Cuts(s[c..], limit))
  {
    hide Valid, Blank, Cut;
    CutValid(s, limit);
    var cuts, c := Cuts(s, limit), Cut(s, limit);
    assert cuts[0] == s[..c] && cuts[1..] == Cuts(s[c..], limit);
  }

  lemma CutsLast(s: Text, limit: nat)
    requires Valid(s) && limit >= 4 && |s| <= limit
    ensures NotBlank(Cuts(s, limit)) == if Blank(s) then [] else [s]
  {
    hide Valid, Blank;
    assert NotBlank([s][1..]) == [];
  }

  /** The cuts rebuild the text; each is valid and within the limit. */
  lemma {:induction false} CutsRebuild(s: Text, limit: nat)
    requires Valid(s) && limit >= 4
    ensures Join(Cuts(s, limit)) == s
    ensures forall i :: 0 <= i < |Cuts(s, limit)| ==> Valid(Cuts(s, limit)[i]) && |Cuts(s, limit)[i]| <= limit
    decreases |s|
  {
    hide Valid, Cut;
    if |s| <= limit {
      assert Join([s]) == s + Join([s][1..]);
    } else {
      CutValid(s, limit);
      var c := Cut(s, limit);
      CutsRebuild(s[c..], limit);
      var cuts := Cuts(s, limit);
      assert cuts[1..] == Cuts(s[c..], limit);
      assert s[..c] + s[c..] == s;
    }
  }

  /** pieces are cuts in order, and what is missing of the cuts is blank. */
  ghost predicate DropsBlank(cuts: seq<Text>, pieces: seq<Text>) {
    if cuts == [] then pieces == []
    else
      || (Blank(cuts[0]) && DropsBlank(cuts[1..], pieces))
      || (pieces != [] && pieces[0] == cuts[0] && !Blank(cuts[0]) && DropsBlank(cuts[1..], pieces[1..]))
  }

  lemma {:induction false} NotBlankDrops(cuts: seq<Text>)
    ensures DropsBlank(cuts, NotBlank(cuts))
    ensures forall p :: p in NotBlank(cuts) ==> p in cuts && !Blank(p)
  {
    if cuts != [] {
      NotBlankDrops(cuts[1..]);
      var r := NotBlank(cuts[1..]);
      if !Blank(cuts[0]) {
        assert NotBlank(cuts)[1..] == r;
      } else {
        assert NotBlank(cuts) == r;
      }
    }
  }

  /** With no limit below the longest character does every text get cut to its end. */
  lemma StallsBelowFour(limit: nat)
    requires limit < 4
    ensures exists s: Text :: Valid(s) && limit < |s| && Cut(s, limit) == 0
  {
    var c: Text := [0xF0, 0x9F, 0x98, 0x80];
    assert CharLen(c) == 4 && c[4..] == [];
    assert Valid(c);
    assert Cut(c, limit) == 0;
  }

  lemma {:induction false} BlankJoin(cuts: seq<Text>)
    requires forall i :: 0 <= i < |cuts| ==> Valid(cuts[i])
    ensures Valid(Join(cuts)) && (Blank(Join(cuts)) <==> NotBlank(cuts) == [])
  {
    if cuts != [] {
      BlankJoin(cuts[1..]);
      ValidConcat(cuts[0], Join(cuts[1..]));
      BlankConcat(cuts[0], Join(cuts[1..]));
    }
  }

  /** A text with something in it gives a piece, and only such a text. */
  lemma PieceIfNotBlank(s: Text, limit: nat)
    requires Valid(s) && limit >= 4
    ensures NotBlank(Cuts(s, limit)) == [] <==> Blank(s)
  {
    CutsRebuild(s, limit);
    BlankJoin(Cuts(s, limit));
  }

  // ---- splitMessages ----

  datatype Message = Message(role: string, at: Option<int>, content: Text)

  function Size(g: seq<Message>): nat {
    if g == [] then 0 else Size(g[..|g| - 1]) + |g[|g| - 1].content|
  }

  /** A group within both bounds. */
  predicate Fits(g: seq<Message>) {
    Size(g) <= PART_BYTES && |g| <= MAX_MESSAGES
  }

  function WithContents(m: Message, pieces: seq<Text>): (r: seq<Message>)
    ensures |r| == |pieces| && forall i :: 0 <= i < |r| ==> r[i] == m.(content := pieces[i])
  {
    seq(|pieces|, i requires 0 <= i < |pieces| => m.(content := pieces[i]))
  }

  /** A message as its pieces, each with its role and time. */
  function Pieces(m: Message): seq<Message>
    requires Valid(m.content)
  {
    WithContents(m, NotBlank(Cuts(m.content, PART_BYTES)))
  }

  ghost predicate AllValid(ms: seq<Message>) {
    forall i :: 0 <= i < |ms| ==> Valid(ms[i].content)
  }

  function AllPieces(ms: seq<Message>): seq<Message>
    requires AllValid(ms)
  {
    if ms == [] then [] else AllPieces(ms[..|ms| - 1]) + Pieces(ms[|ms| - 1])
  }

  function Flatten(groups: seq<seq<Message>>): seq<Message> {
    if groups == [] then [] else Flatten(groups[..|groups| - 1]) + groups[|groups| - 1]
  }

  /** Cut greedily: every group but the last is in bounds and has no room for what comes after it. */
  ghost predicate Greedy(ps: seq<Message>, groups: seq<seq<Message>>, group: seq<Message>) {
    && Flatten(groups) + group == ps
    && Fits(group) && (group == [] ==> groups == [])
    && (forall i :: 0 <= i < |groups| ==> groups[i] != [] && Fits(groups[i]))
    && (forall i :: 0 <= i < |groups| ==> !Fits(groups[i] + [Next(groups, group, i)]))
  }

  /** The first message after group i. */
  ghost function Next(groups: seq<seq<Message>>, group: seq<Message>, i: nat): Message
    requires i < |groups|
  {
    if i + 1 < |groups| && groups[i + 1] != [] then groups[i + 1][0]
    else if group != [] then group[0]
    else Message("", None, [])
  }

  lemma SizeAppend(g: seq<Message>, m: Message)
    ensures Size(g + [m]) == Size(g) + |m.content|
  {
    assert (g + [m])[..|g|] == g;
  }

  lemma {:induction false} SizeConcat(g: seq<Message>, h: seq<Message>)
    ensures Size(g + h) == Size(g) + Size(h)
  {
    if h == [] {
      assert g + h == g;
    } else {
      var n := |h| - 1;
      SizeConcat(g, h[..n]);
      assert (g + h)[..|g| + n] == g + h[..n];
    }
  }

  lemma FlattenAppend(groups: seq<seq<Message>>, group: seq<Message>)
    ensures Flatten(groups + [group]) == Flatten(groups) + group
  {
    assert (groups + [group])[..|groups|] == groups;
  }

  /** A piece that fits on its own goes into the open group, or closes it and opens the next. */
  lemma Placed(ps: seq<Message>, groups: seq<seq<Message>>, group: seq<Message>, p: Message)
    requires Greedy(ps, groups, group) && |p.content| <= PART_BYTES
    ensures group != [] && !Fits(group + [p]) ==> Greedy(ps + [p], groups + [group], [p])
    ensures group == [] || Fits(group + [p]) ==> Greedy(ps + [p], groups, group + [p])
  {
    SizeAppend([], p);
    assert [] + [p] == [p];
    if group != [] && !Fits(group + [p]) {
      FlattenAppend(groups, group);
      var gs := groups + [group];
      forall i | 0 <= i < |gs|
        ensures !Fits(gs[i] + [Next(gs, [p], i)])
      {
        if i < |groups| {
          assert Next(gs, [p], i) == Next(groups, group, i);
        }
      }
    } else {
      forall i | 0 <= i < |groups|
        ensures !Fits(groups[i] + [Next(groups, group + [p], i)])
      {
        assert Next(groups, group + [p], i) == Next(groups, group, i);
      }
      assert Flatten(groups) + (group + [p]) == ps + [p];
    }
  }

  /** The inner loop: the pieces of one message are placed after the messages ps. */
  method PlacePieces(m: Message, pieces: seq<Text>, groups: seq<seq<Message>>, group: seq<Message>, size: nat,
                     ghost ps: seq<Message>)
    returns (groups': seq<seq<Message>>, group': seq<Message>, size': nat)
    requires Greedy(ps, groups, group) && size == Size(group) && forall p :: p in pieces ==> |p| <= PART_BYTES
    ensures Greedy(ps + WithContents(m, pieces), groups', group') && size' == Size(group')
  {
    hide Greedy, Size;
    groups', group', size' := groups, group, size;
    ghost var ms := WithContents(m, pieces);
    var j := 0;
    assert ps + ms[..0] == ps;
    while j < |pieces|
      invariant j <= |pieces| && size' == Size(group')
      invariant Greedy(ps + ms[..j], groups', group')
    {
      var piece := pieces[j];
      assert piece in pieces;
      var cut := m.(content := piece);
      Placed(ps + ms[..j], groups', group', cut);
      GreedyFits(ps + ms[..j], groups', group');
      SizeAppend(group', cut);
      SizeAppend([], cut);
      SizeNone();
      assert ps + ms[..j] + [cut] == ps + ms[..j + 1];
      if |group'| > 0 && (size' + |piece| > PART_BYTES || |group'| == MAX_MESSAGES) {
        groups', group', size' := groups' + [group'], [], 0;
        assert [] + [cut] == [cut];
      }
      group', size' := group' + [cut], size' + |piece|;
      j := j + 1;
    }
    assert ms[..j] == ms;
  }

  lemma SizeNone()
    ensures Size([]) == 0
  {
  }

  method SplitMessages(messages: seq<Message>) returns (groups: seq<seq<Message>>)
    requires AllValid(messages)
    ensures |groups| > 0 && Greedy(AllPieces(messages), groups[..|groups| - 1], groups[|groups| - 1])
  {
    hide Greedy, Cuts, NotBlank, Valid;
    groups := [];
    var group: seq<Message> := [];
    var size := 0;
    GreedyNone();
    var i := 0;
    while i < |messages|
      invariant i <= |messages| && size == Size(group) && AllValid(messages[..i])
      invariant Greedy(AllPieces(messages[..i]), groups, group)
    {
      var m := messages[i];
      assert messages[..i + 1][..i] == messages[..i];
      var pieces := SplitText(m.content, PART_BYTES);
      PieceBounds(m.content);
      groups, group, size := PlacePieces(m, pieces, groups, group, size, AllPieces(messages[..i]));
      i := i + 1;
    }
    assert messages[..i] == messages;
    var all := groups + [group];
    assert all[..|all| - 1] == groups;
    return all;
  }

  lemma GreedyNone()
    ensures Greedy([], [], [])
  {
  }

  lemma GreedyFits(ps: seq<Message>, groups: seq<seq<Message>>, group: seq<Message>)
    requires Greedy(ps, groups, group)
    ensures Fits(group)
  {
  }

  lemma PieceBounds(s: Text)
    requires Valid(s)
    ensures forall p :: p in NotBlank(Cuts(s, PART_BYTES)) ==> |p| <= PART_BYTES && Valid(p) && !Blank(p)
  {
    hide Cuts;
    CutsRebuild(s, PART_BYTES);
    NotBlankDrops(Cuts(s, PART_BYTES));
  }

  // ---- no grouping has fewer groups ----

  /** How many messages the first k groups hold. */
  function Upto(groups: seq<seq<Message>>, k: nat): nat
    requires k <= |groups|
  {
    if k == 0 then 0 else Upto(groups, k - 1) + |groups[k - 1]|
  }

  lemma {:induction false} UptoFlatten(groups: seq<seq<Message>>, k: nat)
    requires k <= |groups|
    ensures Upto(groups, k) == |Flatten(groups[..k])| && Upto(groups, k) <= |Flatten(groups)|
    ensures Flatten(groups)[..Upto(groups, k)] == Flatten(groups[..k])
    decreases |groups|, k
  {
    if k < |groups| {
      var n := |groups| - 1;
      UptoFlatten(groups[..n], k);
      assert groups[..n][..k] == groups[..k];
      UptoSame(groups[..n], groups, k);
    } else if k > 0 {
      UptoFlatten(groups[..k - 1], k - 1);
      assert groups[..k - 1][..k - 1] == groups[..k - 1];
      UptoSame(groups[..k - 1], groups, k - 1);
      assert groups[..k] == groups;
    }
  }

  lemma {:induction false} UptoSame(gs: seq<seq<Message>>, hs: seq<seq<Message>>, k: nat)
    requires k <= |gs| && k <= |hs| && gs[..k] == hs[..k]
    ensures Upto(gs, k) == Upto(hs, k)
  {
    if k > 0 {
      assert gs[k - 1] == gs[..k][k - 1] && hs[k - 1] == hs[..k][k - 1];
      assert gs[..k - 1] == gs[..k][..k - 1] && hs[..k - 1] == hs[..k][..k - 1];
      UptoSame(gs, hs, k - 1);
    }
  }

  /** Group k is where it is among the messages. */
  lemma GroupAt(groups: seq<seq<Message>>, k: nat)
    requires k < |groups|
    ensures Upto(groups, k + 1) <= |Flatten(groups)|
    ensures Flatten(groups)[Upto(groups, k)..Upto(groups, k + 1)] == groups[k]
  {
    UptoFlatten(groups, k);
    UptoFlatten(groups, k + 1);
    assert groups[..k + 1][..k] == groups[..k];
    var f := Flatten(groups)[..Upto(groups, k + 1)];
    assert f == Flatten(groups[..k]) + groups[k];
    assert f[Upto(groups, k)..] == groups[k];
  }

  /** Part of a group that fits does. */
  lemma FitsPart(ps: seq<Message>, a: nat, b: nat, c: nat, d: nat)
    requires a <= b <= c <= d <= |ps| && Fits(ps[a..d])
    ensures Fits(ps[b..c])
  {
    hide Size;
    SizeConcat(ps[a..b], ps[b..c]);
    SizeConcat(ps[a..c], ps[c..d]);
    assert ps[a..b] + ps[b..c] == ps[a..c];
    assert ps[a..c] + ps[c..d] == ps[a..d];
  }

  /** A grouping in bounds has, after any number of groups, got no further than the greedy one. */
  lemma {:induction false} StaysAhead(ps: seq<Message>, groups: seq<seq<Message>>, group: seq<Message>,
                                      other: seq<seq<Message>>, k: nat)
    requires Greedy(ps, groups, group) && Flatten(other) == ps && forall i :: 0 <= i < |other| ==> Fits(other[i])
    requires k <= |groups| && k <= |other|
    ensures Upto(other, k) <= Upto(groups, k)
  {
    hide Greedy, Fits, Flatten;
    if k > 0 {
      StaysAhead(ps, groups, group, other, k - 1);
      if Upto(other, k) > Upto(groups, k) {
        NextAt(ps, groups, group, k - 1);
        GroupAt(other, k - 1);
        var a, b := Upto(groups, k - 1), Upto(groups, k);
        FitsPart(ps, Upto(other, k - 1), a, b + 1, Upto(other, k));
      }
    }
  }

  /** Group k with the message after it does not fit. */
  lemma NextAt(ps: seq<Message>, groups: seq<seq<Message>>, group: seq<Message>, k: nat)
    requires Greedy(ps, groups, group) && k < |groups|
    ensures Upto(groups, k) <= Upto(groups, k + 1) < |ps| && !Fits(ps[Upto(groups, k)..Upto(groups, k + 1) + 1])
  {
    hide Fits, Flatten;
    GroupAt(groups, k);
    var a, b, f := Upto(groups, k), Upto(groups, k + 1), Flatten(groups);
    assert ps[..|f|] == f;
    assert ps[a..b] == f[a..b];
    if k + 1 < |groups| {
      GroupAt(groups, k + 1);
      assert f[b..Upto(groups, k + 2)][0] == f[b];
    } else {
      UptoFlatten(groups, k + 1);
      assert groups[..k + 1] == groups;
      assert ps[|f|] == group[0];
    }
    assert ps[b] == Next(groups, group, k);
    assert ps[a..b + 1] == ps[a..b] + [ps[b]];
  }

  /**
   The groups are the pieces in order, each within both bounds, and no
   contiguous grouping of the same pieces within the bounds has fewer.
   */
  lemma Minimal(ps: seq<Message>, groups: seq<seq<Message>>, group: seq<Message>, other: seq<seq<Message>>)
    requires Greedy(ps, groups, group) && ps != []
    requires Flatten(other) == ps && forall i :: 0 <= i < |other| ==> Fits(other[i])
    ensures |other| >= |groups| + 1
  {
    hide Fits;
    if |other| <= |groups| {
      StaysAhead(ps, groups, group, other, |other|);
      UptoFlatten(other, |other|);
      assert other[..|other|] == other;
      UptoFlatten(groups, |other|);
    }
  }

  // ---- parts ----

  /** The messages with text, and how many have none. */
  function WithText(ms: seq<Message>): seq<Message> {
    if ms == [] then []
    else WithText(ms[..|ms| - 1]) + if Blank(ms[|ms| - 1].content) then [] else [ms[|ms| - 1]]
  }

  /** A part of an Add is within what one document holds. */
  predicate Storable(g: seq<Message>) {
    0 < |g| <= MAX_MESSAGES && Size(g) <= MAX_BYTES
  }

  /** The loop that skips the messages without text. */
  method KeepText(messages: seq<Message>) returns (stored: seq<Message>, total: nat, skipped: nat)
    requires AllValid(messages)
    ensures stored == WithText(messages) && total == Size(stored) && skipped + |stored| == |messages|
    ensures AllValid(stored) && forall m :: m in stored ==> !Blank(m.content)
  {
    hide Valid, Blank, Size;
    stored, total, skipped := [], 0, 0;
    SizeNone();
    var i := 0;
    while i < |messages|
      invariant i <= |messages| && stored == WithText(messages[..i]) && total == Size(stored) && skipped + |stored| == i
      invariant AllValid(stored) && forall m :: m in stored ==> !Blank(m.content)
    {
      TextOneMore(messages, i);
      if Blank(messages[i].content) {
        skipped := skipped + 1;
      } else {
        SizeAppend(stored, messages[i]);
        stored := stored + [messages[i]];
        total := total + |messages[i].content|;
      }
      i := i + 1;
    }
    assert messages[..i] == messages;
  }

  lemma TextOneMore(ms: seq<Message>, i: nat)
    requires i < |ms|
    ensures WithText(ms[..i + 1]) == WithText(ms[..i]) + if Blank(ms[i].content) then [] else [ms[i]]
  {
    assert ms[..i + 1][..i] == ms[..i];
  }

  /** parts, up to the packing of each into a document. */
  method Parts(messages: seq<Message>) returns (groups: seq<seq<Message>>, skipped: nat)
    requires AllValid(messages)
    ensures skipped + |WithText(messages)| == |messages|
    ensures groups == [] <==> WithText(messages) == []
    ensures forall i :: 0 <= i < |groups| ==> Storable(groups[i])
    ensures Storable(WithText(messages)) ==> groups == [WithText(messages)]
    ensures AllValid(WithText(messages))
    ensures !Storable(WithText(messages)) && groups != [] ==>
              Greedy(AllPieces(WithText(messages)), groups[..|groups| - 1], groups[|groups| - 1])
  {
    hide Valid, Blank, AllPieces, Greedy, Size, AllValid, WithText;
    var stored, total;
    stored, total, skipped := KeepText(messages);
    if |stored| == 0 {
      return [], skipped;
    }
    groups := [stored];
    if total > MAX_BYTES || |stored| > MAX_MESSAGES {
      groups := SplitMessages(stored);
      SomePieces(stored);
      GreedyStorable(AllPieces(stored), groups[..|groups| - 1], groups[|groups| - 1]);
    }
  }

  lemma SomePieces(ms: seq<Message>)
    requires AllValid(ms) && ms != [] && forall m :: m in ms ==> !Blank(m.content)
    ensures AllPieces(ms) != []
  {
    hide Cuts, NotBlank, Blank, Valid;
    var m := ms[|ms| - 1];
    assert m in ms;
    PieceIfNotBlank(m.content, PART_BYTES);
  }

  lemma GreedyStorable(ps: seq<Message>, groups: seq<seq<Message>>, group: seq<Message>)
    requires Greedy(ps, groups, group) && ps != []
    ensures Storable(group) && forall i :: 0 <= i < |groups| ==> Storable(groups[i])
  {
    hide Size;
  }
}
