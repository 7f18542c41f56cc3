/** Strings of code points: concatenation of parts and trimming at both ends. */
module Text {

  /** `strings.Builder` content after writing `parts` in order. */
  function Concat(parts: seq<string>): (text: string)
  {
    if parts == [] then "" else Concat(parts[..|parts| - 1]) + parts[|parts| - 1]
  }

  lemma Assoc(a: string, b: string, c: string)
    ensures a + b + c == a + (b + c)
  {
  }

  /** `strings.TrimSpace` and `String.prototype.trim` for the space test each library uses. */
  function Trim(s: string, isSpace: char -> bool): (t: string)
    ensures |t| <= |s|
    ensures t != "" ==> !isSpace(t[0]) && !isSpace(t[|t| - 1])
    decreases |s|
  {
    if s != "" && isSpace(s[0]) then Trim(s[1..], isSpace)
    else if s != "" && isSpace(s[|s| - 1]) then Trim(s[..|s| - 1], isSpace)
    else s
  }

  predicate AllSpace(s: string, isSpace: char -> bool)
  {
    forall c | c in s :: isSpace(c)
  }

  /** `s` is white space, `t`, and white space again. */
  ghost predicate Within(t: string, s: string, isSpace: char -> bool)
  {
    exists left, right | AllSpace(left, isSpace) && AllSpace(right, isSpace) :: s == left + t + right
  }

  lemma MoreBefore(c: char, t: string, s: string, isSpace: char -> bool)
    requires isSpace(c) && Within(t, s, isSpace)
    ensures Within(t, [c] + s, isSpace)
  {
    var left, right :| AllSpace(left, isSpace) && AllSpace(right, isSpace) && s == left + t + right;
    assert AllSpace([c] + left, isSpace) && [c] + s == [c] + left + t + right;
  }

  lemma MoreAfter(c: char, t: string, s: string, isSpace: char -> bool)
    requires isSpace(c) && Within(t, s, isSpace)
    ensures Within(t, s + [c], isSpace)
  {
    var left, right :| AllSpace(left, isSpace) && AllSpace(right, isSpace) && s == left + t + right;
    assert AllSpace(right + [c], isSpace) && s + [c] == left + t + (right + [c]);
  }

  lemma WithinItself(s: string, isSpace: char -> bool)
    ensures Within(s, s, isSpace)
  {
    assert AllSpace("", isSpace) && s == "" + s + "";
  }

  /** Only white space is trimmed, and all of it at both ends. */
  lemma {:induction false} TrimDropsSpace(s: string, isSpace: char -> bool)
    ensures Within(Trim(s, isSpace), s, isSpace) && Trimmed(Trim(s, isSpace), isSpace)
    decreases |s|
  {
    hide Within;
    if s != "" && isSpace(s[0]) {
      TrimDropsSpace(s[1..], isSpace);
      MoreBefore(s[0], Trim(s, isSpace), s[1..], isSpace);
      assert s == [s[0]] + s[1..];
    } else if s != "" && isSpace(s[|s| - 1]) {
      TrimDropsSpace(s[..|s| - 1], isSpace);
      MoreAfter(s[|s| - 1], Trim(s, isSpace), s[..|s| - 1], isSpace);
      assert s == s[..|s| - 1] + [s[|s| - 1]];
    } else {
      WithinItself(s, isSpace);
    }
  }

  /** Nothing is trimmed from a string whose two ends are not spaces. */
  predicate Trimmed(s: string, isSpace: char -> bool)
  {
    s == "" || (!isSpace(s[0]) && !isSpace(s[|s| - 1]))
  }

  lemma TrimFixes(s: string, isSpace: char -> bool)
    ensures Trim(s, isSpace) == s <==> Trimmed(s, isSpace)
  {
  }
}
