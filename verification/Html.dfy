/** `escapeHtml` of the browser client: six global replacements, one after the other. */
module Html {

  /** `s.replace(/c/g, by)`. */
  function ReplaceAll(s: string, c: char, code: string): (t: string)
  {
    if s == "" then "" else (if s[0] == c then code else [s[0]]) + ReplaceAll(s[1..], c, code)
  }

  function EscapeHtml(s: string): (html: string)
  {
    var s1 := ReplaceAll(s, '&', "&amp;");
    var s2 := ReplaceAll(s1, '<', "&lt;");
    var s3 := ReplaceAll(s2, '>', "&gt;");
    var s4 := ReplaceAll(s3, '"', "&quot;");
    var s5 := ReplaceAll(s4, '\'', "&#039;");
    ReplaceAll(s5, '\n', "<br>")
  }

  /** The code word of one character. */
  function CodeOf(c: char): (word: string)
  {
    match c
    case '&' => "&amp;"
    case '<' => "&lt;"
    case '>' => "&gt;"
    case '"' => "&quot;"
    case '\'' => "&#039;"
    case '\n' => "<br>"
    case _ => [c]
  }

  /** The one-pass substitution that the six passes are meant to be. */
  function Encode(s: string): (html: string)
  {
    if s == "" then "" else CodeOf(s[0]) + Encode(s[1..])
  }

  lemma {:induction false} ReplaceSplits(a: string, b: string, c: char, code: string)
    ensures ReplaceAll(a + b, c, code) == ReplaceAll(a, c, code) + ReplaceAll(b, c, code)
  {
    if a == "" {
      assert a + b == b;
    } else {
      assert (a + b)[0] == a[0] && (a + b)[1..] == a[1..] + b;
      ReplaceSplits(a[1..], b, c, code);
    }
  }

  lemma {:induction false} ReplaceMisses(s: string, c: char, code: string)
    requires c !in s
    ensures ReplaceAll(s, c, code) == s
  {
    if s == "" {
    } else {
      assert c !in s[1..];
      ReplaceMisses(s[1..], c, code);
    }
  }

  lemma EscapeHtmlSplits(a: string, b: string)
    ensures EscapeHtml(a + b) == EscapeHtml(a) + EscapeHtml(b)
  {
    ReplaceSplits(a, b, '&', "&amp;");
    var a1, b1 := ReplaceAll(a, '&', "&amp;"), ReplaceAll(b, '&', "&amp;");
    ReplaceSplits(a1, b1, '<', "&lt;");
    var a2, b2 := ReplaceAll(a1, '<', "&lt;"), ReplaceAll(b1, '<', "&lt;");
    ReplaceSplits(a2, b2, '>', "&gt;");
    var a3, b3 := ReplaceAll(a2, '>', "&gt;"), ReplaceAll(b2, '>', "&gt;");
    ReplaceSplits(a3, b3, '"', "&quot;");
    var a4, b4 := ReplaceAll(a3, '"', "&quot;"), ReplaceAll(b3, '"', "&quot;");
    ReplaceSplits(a4, b4, '\'', "&#039;");
    var a5, b5 := ReplaceAll(a4, '\'', "&#039;"), ReplaceAll(b4, '\'', "&#039;");
    ReplaceSplits(a5, b5, '\n', "<br>");
  }

  lemma ReplaceOne(c: char, d: char, code: string)
    ensures ReplaceAll([d], c, code) == if d == c then code else [d]
  {
    assert [d][1..] == "";
  }

  /** The last two, three, four and five passes. */
  function FromApos(s: string): string { ReplaceAll(ReplaceAll(s, '\'', "&#039;"), '\n', "<br>") }
  function FromQuot(s: string): string { FromApos(ReplaceAll(s, '"', "&quot;")) }
  function FromGt(s: string): string { FromQuot(ReplaceAll(s, '>', "&gt;")) }
  function FromLt(s: string): string { FromGt(ReplaceAll(s, '<', "&lt;")) }

  lemma AposMisses(s: string)
    requires '\'' !in s && '\n' !in s
    ensures FromApos(s) == s
  {
    ReplaceMisses(s, '\'', "&#039;");
    ReplaceMisses(s, '\n', "<br>");
  }

  lemma LtMisses(s: string)
    requires '<' !in s && '>' !in s && '"' !in s && '\'' !in s && '\n' !in s
    ensures FromLt(s) == FromGt(s) == s
  {
    ReplaceMisses(s, '<', "&lt;");
    ReplaceMisses(s, '>', "&gt;");
    ReplaceMisses(s, '"', "&quot;");
    AposMisses(s);
  }

  lemma FromAposOne(c: char)
    requires c !in "&<>\""
    ensures FromApos([c]) == CodeOf(c)
  {
    ReplaceOne('\'', c, "&#039;");
    if c == '\'' {
      ReplaceMisses(CodeOf(c), '\n', "<br>");
    } else {
      ReplaceOne('\n', c, "<br>");
    }
  }

  lemma FromQuotOne(c: char)
    requires c !in "&<>"
    ensures FromQuot([c]) == CodeOf(c)
  {
    ReplaceOne('"', c, "&quot;");
    if c == '"' {
      AposMisses(CodeOf(c));
    } else {
      FromAposOne(c);
    }
  }

  lemma FromGtOne(c: char)
    requires c !in "&<"
    ensures FromGt([c]) == CodeOf(c)
  {
    ReplaceOne('>', c, "&gt;");
    if c == '>' {
      ReplaceMisses(CodeOf(c), '"', "&quot;");
      AposMisses(CodeOf(c));
    } else {
      FromQuotOne(c);
    }
  }

  /** One character through all six passes: later passes leave its code word alone. */
  lemma EscapeHtmlOne(c: char)
    ensures EscapeHtml([c]) == CodeOf(c)
  {
    ReplaceOne('&', c, "&amp;");
    ReplaceOne('<', c, "&lt;");
    if c == '&' || c == '<' {
      LtMisses(CodeOf(c));
    } else {
      FromGtOne(c);
    }
  }

  /** The six passes never escape each other's output: they are one substitution. */
  lemma {:induction false} SixPassesAreOne(s: string)
    ensures EscapeHtml(s) == Encode(s)
  {
    if s == "" {
    } else {
      assert s == [s[0]] + s[1..];
      EscapeHtmlSplits([s[0]], s[1..]);
      EscapeHtmlOne(s[0]);
      SixPassesAreOne(s[1..]);
    }
  }

  /** What each character becomes, alone and anywhere in a text. */
  lemma EscapeTable(a: string, c: char, b: string)
    ensures EscapeHtml(a + [c] + b) == EscapeHtml(a) + EscapeHtml([c]) + EscapeHtml(b)
    ensures EscapeHtml("&") == "&amp;" && EscapeHtml("<") == "&lt;" && EscapeHtml(">") == "&gt;"
    ensures EscapeHtml("\"") == "&quot;" && EscapeHtml("'") == "&#039;" && EscapeHtml("\n") == "<br>"
    ensures c !in "&<>\"'\n" ==> EscapeHtml([c]) == [c]
  {
    hide EscapeHtml;
    EscapeHtmlSplits(a + [c], b);
    EscapeHtmlSplits(a, [c]);
    EscapeHtmlOne('&');
    EscapeHtmlOne('<');
    EscapeHtmlOne('>');
    EscapeHtmlOne('"');
    EscapeHtmlOne('\'');
    EscapeHtmlOne('\n');
    EscapeHtmlOne(c);
  }

  const SPECIAL: string := "&<>\"'\n"

  /** The special character whose code word opens `html`, or its first character. */
  function FirstChar(html: string): (c: char)
    requires html != ""
  {
    if Opens('&', html) then '&'
    else if Opens('<', html) then '<'
    else if Opens('>', html) then '>'
    else if Opens('"', html) then '"'
    else if Opens('\'', html) then '\''
    else if Opens('\n', html) then '\n'
    else html[0]
  }

  predicate Opens(c: char, html: string)
  {
    CodeOf(c) <= html
  }

  /** Reads code words off the front of `html`. */
  function Decode(html: string): (s: string)
    decreases |html|
  {
    if html == "" then ""
    else
      var c := FirstChar(html);
      [c] + Decode(html[if Opens(c, html) then |CodeOf(c)| else 1..])
  }

  /** The code words are a prefix code: one opens a text starting with another only if they are the same. */
  lemma PrefixCode(c: char, d: char, rest: string)
    requires c in SPECIAL && Opens(c, CodeOf(d) + rest)
    ensures c == d
  {
    var html := CodeOf(d) + rest;
    assert html[0] == CodeOf(c)[0] == CodeOf(d)[0];
    assert d in SPECIAL;
    assert html[1] == CodeOf(c)[1] == CodeOf(d)[1];
  }

  lemma FirstCharOpens(html: string)
    requires html != ""
    ensures || (FirstChar(html) in SPECIAL && Opens(FirstChar(html), html))
            || (FirstChar(html) == html[0] && forall d | d in SPECIAL :: !Opens(d, html))
  {
    hide Opens;
  }

  lemma WordOf(c: char)
    ensures CodeOf(c) != "" && (c !in SPECIAL ==> CodeOf(c) == [c])
  {
  }

  lemma FirstCharOfWord(c: char, rest: string)
    ensures FirstChar(CodeOf(c) + rest) == c && Opens(c, CodeOf(c) + rest)
    ensures (CodeOf(c) + rest)[|CodeOf(c)|..] == rest
  {
    hide FirstChar, CodeOf, SPECIAL;
    WordOf(c);
    var html := CodeOf(c) + rest;
    FirstCharOpens(html);
    assert Opens(c, html);
    if FirstChar(html) in SPECIAL && Opens(FirstChar(html), html) {
      PrefixCode(FirstChar(html), c, rest);
    }
  }

  lemma {:induction false} DecodeEncoded(s: string)
    ensures Decode(Encode(s)) == s
  {
    if s == "" {
    } else {
      FirstCharOfWord(s[0], Encode(s[1..]));
      DecodeEncoded(s[1..]);
    }
  }

  /** Escaping loses nothing: every text is recovered from its escaped form. */
  lemma UnescapeRecovers(s: string)
    ensures Decode(EscapeHtml(s)) == s
  {
    SixPassesAreOne(s);
    DecodeEncoded(s);
  }

  /** Position `i` of a text: no quote or newline, and angle brackets only as part of `<br>`. */
  predicate Inert(html: string, i: nat)
    requires i < |html|
  {
    && html[i] !in "\"'\n"
    && (html[i] == '<' ==> i + 4 <= |html| && html[i..i + 4] == "<br>")
    && (html[i] == '>' ==> i >= 3 && html[i - 3..i + 1] == "<br>")
  }

  lemma InertLater(word: string, rest: string, j: nat)
    requires j < |rest| && Inert(rest, j)
    ensures Inert(word + rest, |word| + j)
  {
    var html, i := word + rest, |word| + j;
    if rest[j] == '<' {
      assert html[i..i + 4] == rest[j..j + 4];
    } else if rest[j] == '>' {
      assert html[i - 3..i + 1] == rest[j - 3..j + 1];
    }
  }

  lemma NoMarkup(c: char, i: nat)
    requires c != '\n' && i < |CodeOf(c)|
    ensures CodeOf(c)[i] !in "\"'\n" && CodeOf(c)[i] != '<' && CodeOf(c)[i] != '>'
  {
  }

  lemma BreakIsInert(rest: string, i: nat)
    requires i < 4
    ensures Inert("<br>" + rest, i)
  {
    assert ("<br>" + rest)[0..4] == "<br>";
  }

  lemma WordIsInert(c: char, rest: string, i: nat)
    requires i < |CodeOf(c)|
    ensures Inert(CodeOf(c) + rest, i)
  {
    if c == '\n' {
      BreakIsInert(rest, i);
    } else {
      NoMarkup(c, i);
      hide CodeOf;
      assert (CodeOf(c) + rest)[i] == CodeOf(c)[i];
    }
  }

  lemma {:induction false} EncodedIsInert(s: string, i: nat)
    requires i < |Encode(s)|
    ensures Inert(Encode(s), i)
  {
    var c, tail := s[0], s[1..];
    if i < |CodeOf(c)| {
      WordIsInert(c, Encode(tail), i);
    } else {
      EncodedIsInert(tail, i - |CodeOf(c)|);
      InertLater(CodeOf(c), Encode(tail), i - |CodeOf(c)|);
    }
  }

  /** Escaped text adds no markup but line breaks, and cannot leave a quoted attribute. */
  lemma EscapedIsInert(s: string, i: nat)
    requires i < |EscapeHtml(s)|
    ensures Inert(EscapeHtml(s), i)
  {
    SixPassesAreOne(s);
    EncodedIsInert(s, i);
  }
}
