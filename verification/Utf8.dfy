/**
 UTF-8 text as bytes: the characters of section 4 of RFC 3629, their
 boundaries, and white space (unicode.IsSpace).
 */
module Utf8 {

  newtype byte = x: int | 0 <= x < 256

  type Text = seq<byte>

  predicate IsTail(b: byte) {
    0x80 <= b <= 0xBF
  }

  /** utf8.RuneStart. */
  predicate RuneStart(b: byte) {
    !IsTail(b)
  }

  /** The bytes of the well-formed character s begins with, 0 if it begins with none. */
  function CharLen(s: Text): (n: nat)
    ensures n <= 4 && n <= |s|
  {
    if |s| == 0 then 0
    else
      var b := s[0];
      if b < 0x80 then 1
      else if |s| >= 2 && 0xC2 <= b <= 0xDF && IsTail(s[1]) then 2
      else if |s| >= 3 && IsTail(s[1]) && IsTail(s[2])
              && ((b == 0xE0 && 0xA0 <= s[1]) || 0xE1 <= b <= 0xEC || (b == 0xED && s[1] <= 0x9F) || 0xEE <= b <= 0xEF)
      then 3
      else if |s| >= 4 && IsTail(s[1]) && IsTail(s[2]) && IsTail(s[3])
              && ((b == 0xF0 && 0x90 <= s[1]) || 0xF1 <= b <= 0xF3 || (b == 0xF4 && s[1] <= 0x8F)) then 4
      else 0
  }

  predicate Valid(s: Text) {
    s == [] || (CharLen(s) > 0 && Valid(s[CharLen(s)..]))
  }

  /** unicode.IsSpace, on the bytes of one character. */
  predicate IsSpace(c: Text) {
    || (|c| == 1 && (9 <= c[0] <= 13 || c[0] == 32))
    || (|c| == 2 && c[0] == 0xC2 && (c[1] == 0x85 || c[1] == 0xA0))
    || c == [0xE1, 0x9A, 0x80]
    || (|c| == 3 && c[0] == 0xE2 && c[1] == 0x80 && (c[2] <= 0x8A || c[2] == 0xA8 || c[2] == 0xA9 || c[2] == 0xAF))
    || c == [0xE2, 0x81, 0x9F]
    || c == [0xE3, 0x80, 0x80]
  }

  /** strings.TrimSpace(s) == "". */
  predicate Blank(s: Text) {
    s == [] || (CharLen(s) > 0 && IsSpace(s[..CharLen(s)]) && Blank(s[CharLen(s)..]))
  }

  /** A space begins at i. */
  predicate SpaceAt(s: Text, i: int) {
    0 <= i < |s| && RuneStart(s[i]) && IsSpace(s[i..][..CharLen(s[i..])])
  }

  /** strings.LastIndexFunc(s, unicode.IsSpace). */
  function LastSpace(s: Text): (r: int)
    requires Valid(s)
    ensures -1 <= r < |s|
  {
    if s == [] then -1
    else
      var n := CharLen(s);
      var r := LastSpace(s[n..]);
      if r >= 0 then n + r else if IsSpace(s[..n]) then 0 else -1
  }

  // ---- boundaries ----

  lemma CharLenPrefix(s: Text, i: nat)
    requires CharLen(s) > 0 && CharLen(s) <= i <= |s|
    ensures CharLen(s[..i]) == CharLen(s)
  {
  }

  /** Inside a character there are only tail bytes. */
  lemma TailsInside(s: Text, i: nat)
    requires 0 < i < CharLen(s)
    ensures !RuneStart(s[i])
  {
  }

  /** In valid text a byte that starts a character splits it into two valid texts. */
  lemma {:induction false} StartIsBoundary(s: Text, i: nat)
    requires Valid(s) && i < |s| && RuneStart(s[i])
    ensures Valid(s[..i]) && Valid(s[i..])
    decreases |s|
  {
    var n := CharLen(s);
    if i == 0 {
      assert s[0..] == s;
    } else if i < n {
      TailsInside(s, i);
    } else {
      var u := s[n..];
      assert u[i - n] == s[i];
      StartIsBoundary(u, i - n);
      assert u[i - n..] == s[i..];
      CharLenPrefix(s, i);
      assert s[..i][n..] == u[..i - n];
    }
  }

  lemma BoundaryIsStart(s: Text, i: nat)
    requires i < |s| && Valid(s[i..])
    ensures RuneStart(s[i])
  {
    assert s[i..][0] == s[i];
  }

  /** A character starts at most three bytes before any byte. */
  lemma {:induction false} StartNearby(s: Text, i: nat) returns (j: nat)
    requires Valid(s) && i < |s|
    ensures j <= i <= j + 3 && RuneStart(s[j])
    decreases |s|
  {
    var n := CharLen(s);
    if i < n {
      j := 0;
    } else {
      assert s[n..][i - n] == s[i];
      j := StartNearby(s[n..], i - n);
      assert s[n..][j] == s[n + j];
      j := n + j;
    }
  }

  lemma CharLenExtends(s: Text, t: Text)
    requires CharLen(s) > 0
    ensures CharLen(s + t) == CharLen(s)
  {
  }

  lemma DropConcat(s: Text, t: Text, n: nat)
    requires n <= |s|
    ensures (s + t)[n..] == s[n..] + t && (s + t)[..n] == s[..n]
  {
  }

  lemma {:induction false} ValidConcat(s: Text, t: Text)
    requires Valid(s) && Valid(t)
    ensures Valid(s + t)
    decreases |s|
  {
    hide CharLen;
    if s == [] {
      assert s + t == t;
    } else {
      var n := CharLen(s);
      ValidConcat(s[n..], t);
      CharLenExtends(s, t);
      DropConcat(s, t, n);
    }
  }

  // ---- white space ----

  lemma {:induction false} BlankConcat(s: Text, t: Text)
    requires Valid(s) && Valid(t)
    ensures Blank(s + t) <==> Blank(s) && Blank(t)
    decreases |s|
  {
    hide CharLen, IsSpace;
    if s == [] {
      assert s + t == t;
    } else {
      var n := CharLen(s);
      BlankConcat(s[n..], t);
      CharLenExtends(s, t);
      DropConcat(s, t, n);
    }
  }

  lemma {:induction false} LastSpaceIs(s: Text)
    requires Valid(s)
    ensures LastSpace(s) >= 0 ==> SpaceAt(s, LastSpace(s))
    ensures forall i :: LastSpace(s) < i < |s| ==> !SpaceAt(s, i)
    decreases |s|
  {
    if s != [] {
      var n := CharLen(s);
      var u := s[n..];
      LastSpaceIs(u);
      forall i | n <= i < |s|
        ensures SpaceAt(s, i) <==> SpaceAt(u, i - n)
      {
        assert s[i..] == u[i - n..];
      }
      forall i | 0 < i < n
        ensures !SpaceAt(s, i)
      {
        TailsInside(s, i);
      }
      assert s[0..] == s;
    }
  }
}
