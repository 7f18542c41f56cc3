/** Go strings as byte sequences, and `strings.TrimSpace` on them. */
module GoBytes {

  type Byte = b: int | 0 <= b < 256

  type Bytes = seq<Byte>

  /** The UTF-8 encodings of the white space that `unicode.IsSpace` accepts. */
  predicate IsSpace(e: Bytes)
  {
    || (|e| == 1 && (9 <= e[0] <= 13 || e[0] == 32))
    || (|e| == 2 && e[0] == 0xC2 && (e[1] == 0x85 || e[1] == 0xA0))
    || (|e| == 3 && e[0] == 0xE1 && e[1] == 0x9A && e[2] == 0x80)
    || (|e| == 3 && e[0] == 0xE2 && e[1] == 0x80 && (0x80 <= e[2] <= 0x8A || e[2] == 0xA8 || e[2] == 0xA9 || e[2] == 0xAF))
    || (|e| == 3 && e[0] == 0xE2 && e[1] == 0x81 && e[2] == 0x9F)
    || (|e| == 3 && e[0] == 0xE3 && e[1] == 0x80 && e[2] == 0x80)
  }

  /** Length of the white space that `s` starts with, or 0. */
  function LeadingSpace(s: Bytes): (n: nat)
    ensures n <= |s|
    ensures n > 0 ==> IsSpace(s[..n])
    ensures n == 0 ==> forall k | 0 <= k <= |s| :: !IsSpace(s[..k])
  {
    if |s| >= 1 && IsSpace(s[..1]) then 1
    else if |s| >= 2 && IsSpace(s[..2]) then 2
    else if |s| >= 3 && IsSpace(s[..3]) then 3
    else 0
  }

  function TrailingSpace(s: Bytes): (n: nat)
    ensures n <= |s|
    ensures n > 0 ==> IsSpace(s[|s| - n..])
    ensures n == 0 ==> forall k | 0 <= k <= |s| :: !IsSpace(s[k..])
  {
    if |s| >= 1 && IsSpace(s[|s| - 1..]) then 1
    else if |s| >= 2 && IsSpace(s[|s| - 2..]) then 2
    else if |s| >= 3 && IsSpace(s[|s| - 3..]) then 3
    else 0
  }

  function TrimLeft(s: Bytes): (t: Bytes)
    ensures LeadingSpace(t) == 0
    decreases |s|
  {
    var n := LeadingSpace(s);
    if n == 0 then s else TrimLeft(s[n..])
  }

  function TrimRight(s: Bytes): (t: Bytes)
    ensures t <= s
    ensures TrailingSpace(t) == 0
    decreases |s|
  {
    var n := TrailingSpace(s);
    if n == 0 then s else TrimRight(s[..|s| - n])
  }

  function TrimSpace(s: Bytes): (t: Bytes)
  {
    TrimRight(TrimLeft(s))
  }

  /** One white space after the other. */
  predicate Spaces(s: Bytes)
  {
    s == [] || exists n | 1 <= n <= |s| :: IsSpace(s[..n]) && Spaces(s[n..])
  }

  lemma NoneIsSpaces()
    ensures Spaces([])
  {
  }

  lemma SpacesBefore(e: Bytes, rest: Bytes)
    requires IsSpace(e) && Spaces(rest)
    ensures Spaces(e + rest)
  {
    assert (e + rest)[..|e|] == e && (e + rest)[|e|..] == rest;
  }

  lemma FirstSpace(s: Bytes) returns (n: nat)
    requires Spaces(s) && s != []
    ensures 1 <= n <= |s| && IsSpace(s[..n]) && Spaces(s[n..])
  {
    n :| 1 <= n <= |s| && IsSpace(s[..n]) && Spaces(s[n..]);
  }

  lemma Regroup(a: Bytes, b: Bytes, c: Bytes)
    ensures a + b + c == a + (b + c)
  {
  }

  lemma {:induction false} SpacesAfter(s: Bytes, e: Bytes)
    requires Spaces(s) && IsSpace(e)
    ensures Spaces(s + e)
    decreases |s|
  {
    hide Spaces, IsSpace;
    if s == [] {
      NoneIsSpaces();
      SpacesBefore(e, []);
      assert e + [] == s + e;
    } else {
      var n := FirstSpace(s);
      SpacesAfter(s[n..], e);
      SpacesBefore(s[..n], s[n..] + e);
      Regroup(s[..n], s[n..], e);
      assert s[..n] + s[n..] == s;
    }
  }

  /** `s` is white space and then `t`. */
  ghost predicate SpaceBefore(t: Bytes, s: Bytes)
  {
    exists left | Spaces(left) :: s == left + t
  }

  ghost predicate SpaceAfter(t: Bytes, s: Bytes)
  {
    exists right | Spaces(right) :: s == t + right
  }

  lemma NoSpaceNeeded(s: Bytes)
    ensures SpaceBefore(s, s) && SpaceAfter(s, s)
  {
    NoneIsSpaces();
    assert s == [] + s && s == s + [];
  }

  lemma MoreBefore(e: Bytes, t: Bytes, s: Bytes)
    requires IsSpace(e) && SpaceBefore(t, s)
    ensures SpaceBefore(t, e + s)
  {
    hide IsSpace, Spaces;
    var left :| Spaces(left) && s == left + t;
    SpacesBefore(e, left);
    Regroup(e, left, t);
  }

  lemma MoreAfter(e: Bytes, t: Bytes, s: Bytes)
    requires IsSpace(e) && SpaceAfter(t, s)
    ensures SpaceAfter(t, s + e)
  {
    hide IsSpace, Spaces;
    var right :| Spaces(right) && s == t + right;
    SpacesAfter(right, e);
    Regroup(t, right, e);
  }

  lemma {:induction false} TrimLeftDropsSpaces(s: Bytes)
    ensures SpaceBefore(TrimLeft(s), s)
    decreases |s|
  {
    hide IsSpace, SpaceBefore;
    var n := LeadingSpace(s);
    if n == 0 {
      NoSpaceNeeded(s);
    } else {
      TrimLeftDropsSpaces(s[n..]);
      MoreBefore(s[..n], TrimLeft(s), s[n..]);
      assert s == s[..n] + s[n..];
    }
  }

  lemma {:induction false} TrimRightDropsSpaces(s: Bytes)
    ensures SpaceAfter(TrimRight(s), s)
    decreases |s|
  {
    hide IsSpace, SpaceAfter;
    var n := TrailingSpace(s);
    if n == 0 {
      NoSpaceNeeded(s);
    } else {
      TrimRightDropsSpaces(s[..|s| - n]);
      MoreAfter(s[|s| - n..], TrimRight(s), s[..|s| - n]);
      assert s == s[..|s| - n] + s[|s| - n..];
    }
  }

  /** Only white space is trimmed: the string is white space, the result, and white space again. */
  lemma TrimSpaceDropsSpaces(s: Bytes)
    ensures exists left, right | Spaces(left) && Spaces(right) :: s == left + TrimSpace(s) + right
  {
    hide Spaces, TrimLeft, TrimRight;
    TrimLeftDropsSpaces(s);
    TrimRightDropsSpaces(TrimLeft(s));
    var left :| Spaces(left) && s == left + TrimLeft(s);
    var right :| Spaces(right) && TrimLeft(s) == TrimSpace(s) + right;
    Regroup(left, TrimSpace(s), right);
  }

  lemma PrefixHasNoLeadingSpace(s: Bytes, t: Bytes)
    requires t <= s && LeadingSpace(s) == 0
    ensures LeadingSpace(t) == 0
  {
    assert forall k | 0 <= k <= |t| :: t[..k] == s[..k];
  }

  /** A trimmed string has no space at either end, so trimming again changes nothing. */
  lemma TrimSpaceTwice(s: Bytes)
    ensures LeadingSpace(TrimSpace(s)) == 0 && TrailingSpace(TrimSpace(s)) == 0
    ensures TrimSpace(TrimSpace(s)) == TrimSpace(s)
  {
    PrefixHasNoLeadingSpace(TrimLeft(s), TrimSpace(s));
  }
}
