/**
  JSON strings (section 7 of RFC 8259): the text Go's `encoding/json` prints for an object with one
  string member, and the reading of such an object by `JSON.parse`.
 */
module Json {
  import opened Hex
  import Text
  import opened Wrappers

  /** One member of an object, `"name":"value"`. */
  datatype Member = Member(name: string, value: string)

  /** A string read off the front of a text, with the text that follows it. */
  datatype Read = Read(value: string, rest: string)

  function HexDigit(n: nat): (c: char)
    requires n < 16
  {
    LowerDigit(n) as char
  }

  function HexValue(c: char): (v: Option<nat>)
    ensures v.Some? ==> v.value < 16
  {
    if c as int < 256 then Nibble(c as int) else None
  }

  /** The last `width` hex digits of `n`, most significant first. */
  function HexDigits(n: nat, width: nat): (t: string)
    ensures |t| == width
  {
    if width == 0 then "" else HexDigits(n / 16, width - 1) + [HexDigit(n % 16)]
  }

  function ReadHexDigits(t: string): (n: Option<nat>)
  {
    if t == "" then Some(0)
    else match (ReadHexDigits(t[..|t| - 1]), HexValue(t[|t| - 1]))
         case (Some(high), Some(low)) => Some(high * 16 + low)
         case _ => None
  }

  function Pow16(k: nat): (p: nat)
  {
    if k == 0 then 1 else 16 * Pow16(k - 1)
  }

  lemma HexDigitValue(n: nat)
    requires n < 16
    ensures HexValue(HexDigit(n)) == Some(n)
  {
  }

  lemma LastDigitReads(t: string, high: nat, digit: nat)
    requires digit < 16 && ReadHexDigits(t) == Some(high)
    ensures ReadHexDigits(t + [HexDigit(digit)]) == Some(high * 16 + digit)
  {
    hide HexDigit, HexValue;
    HexDigitValue(digit);
    assert (t + [HexDigit(digit)])[..|t|] == t;
  }

  lemma {:induction false} HexDigitsRead(n: nat, width: nat)
    requires n < Pow16(width)
    ensures ReadHexDigits(HexDigits(n, width)) == Some(n)
  {
    if width == 0 {
    } else {
      hide ReadHexDigits, HexDigit;
      HexDigitsRead(n / 16, width - 1);
      LastDigitReads(HexDigits(n / 16, width - 1), n / 16, n % 16);
    }
  }

  /** `\uXXXX` of a code point below 0x10000, in lower-case hex. */
  function UnicodeEscape(c: char): (t: string)
    requires c as int < 0x10000
    ensures |t| == 6
  {
    "\\u" + HexDigits(c as nat, 4)
  }

  const BACKSPACE: char := '\U{8}'
  const FORM_FEED: char := '\U{c}'

  /** Characters with a two-character escape, and its second character. */
  const SHORT: map<char, char> := map[
    '"' := '"', '\\' := '\\', BACKSPACE := 'b', FORM_FEED := 'f', '\n' := 'n', '\r' := 'r', '\t' := 't'
  ]

  /** The encoder's default HTML escaping covers `<`, `>`, `&` and the two line separators too. */
  predicate NeedsUnicodeEscape(c: char)
  {
    c !in SHORT && (c < ' ' || c == '<' || c == '>' || c == '&' || c == '\U{2028}' || c == '\U{2029}')
  }

  function QuoteChar(c: char): (t: string)
  {
    if c in SHORT then ['\\', SHORT[c]]
    else if NeedsUnicodeEscape(c) then UnicodeEscape(c)
    else [c]
  }

  function QuoteBody(s: string): (t: string)
  {
    if s == "" then "" else QuoteChar(s[0]) + QuoteBody(s[1..])
  }

  function Quote(s: string): (t: string)
  {
    "\"" + QuoteBody(s) + "\""
  }

  /** `gin.H{name: value}` as the encoder prints it. */
  function PrintObject(m: Member): (t: string)
  {
    "{" + Quote(m.name) + ":" + Quote(m.value) + "}"
  }

  /** The character named by four hex digits; surrogate halves are no code points. */
  function ReadHex(t: string): (c: Option<char>)
  {
    match ReadHexDigits(t)
    case Some(n) => if n < 0xD800 || 0xE000 <= n < 0x110000 then Some(n as char) else None
    case None => None
  }

  /** What the character after a backslash stands for, unless it is `u`. */
  function ShortEscape(c: char): (r: Option<char>)
  {
    match c
    case '"' => Some('"')
    case '\\' => Some('\\')
    case '/' => Some('/')
    case 'b' => Some(BACKSPACE)
    case 'f' => Some(FORM_FEED)
    case 'n' => Some('\n')
    case 'r' => Some('\r')
    case 't' => Some('\t')
    case _ => None
  }

  function Prepend(c: char, r: Option<Read>): (p: Option<Read>)
  {
    match r
    case Some(Read(value, rest)) => Some(Read([c] + value, rest))
    case None => None
  }

  /** The rest of a string whose opening quote has been read. */
  function ReadBody(t: string): (r: Option<Read>)
    ensures r.Some? ==> |r.value.rest| < |t|
    decreases |t|
  {
    if t == "" then None
    else if t[0] == '"' then Some(Read("", t[1..]))
    else if t[0] == '\\' then
      if |t| < 2 then None
      else if t[1] == 'u' then
        if |t| < 6 then None
        else match ReadHex(t[2..6])
             case Some(c) => Prepend(c, ReadBody(t[6..]))
             case None => None
      else match ShortEscape(t[1])
           case Some(c) => Prepend(c, ReadBody(t[2..]))
           case None => None
    else if t[0] < ' ' then None
    else Prepend(t[0], ReadBody(t[1..]))
  }

  function ReadString(t: string): (r: Option<Read>)
  {
    if t != "" && t[0] == '"' then ReadBody(t[1..]) else None
  }

  /** The value and the closing brace, once the colon has been read. */
  function ParseValue(name: string, t: string): (m: Option<Member>)
  {
    match ReadString(t)
    case Some(Read(value, end)) => if end == "}" then Some(Member(name, value)) else None
    case None => None
  }

  /** The member and the closing brace, once the opening brace has been read. */
  function ParseMember(t: string): (m: Option<Member>)
  {
    match ReadString(t)
    case Some(Read(name, rest)) => if rest != "" && rest[0] == ':' then ParseValue(name, rest[1..]) else None
    case None => None
  }

  /** `JSON.parse` on the compact one-member objects; any other text is `None`. */
  function ParseObject(t: string): (m: Option<Member>)
  {
    if t != "" && t[0] == '{' then ParseMember(t[1..]) else None
  }

  lemma DropFirst(c: char, rest: string)
    ensures ([c] + rest)[0] == c && ([c] + rest)[1..] == rest
  {
  }

  lemma ReadUnicodeEscape(c: char, rest: string)
    requires c as int < 0x10000
    ensures ReadBody(UnicodeEscape(c) + rest) == Prepend(c, ReadBody(rest))
  {
    var digits := HexDigits(c as nat, 4);
    var t := UnicodeEscape(c) + rest;
    assert t[0] == '\\' && t[1] == 'u';
    assert t[2..6] == digits && t[6..] == rest;
    assert Pow16(4) == 0x10000;
    HexDigitsRead(c as nat, 4);
  }

  lemma ReadShortEscape(c: char, d: char, rest: string)
    requires d != 'u' && ShortEscape(d) == Some(c)
    ensures ReadBody(['\\', d] + rest) == Prepend(c, ReadBody(rest))
  {
    assert (['\\', d] + rest)[2..] == rest;
  }

  lemma ReadPlain(c: char, rest: string)
    requires c >= ' ' && c != '"' && c != '\\'
    ensures ReadBody([c] + rest) == Prepend(c, ReadBody(rest))
  {
    DropFirst(c, rest);
  }

  /** Reading takes back one printed character, whatever follows. */
  lemma QuoteCharReads(c: char, rest: string)
    ensures ReadBody(QuoteChar(c) + rest) == Prepend(c, ReadBody(rest))
  {
    if NeedsUnicodeEscape(c) {
      ReadUnicodeEscape(c, rest);
    } else if c in SHORT {
      ReadShortEscape(c, SHORT[c], rest);
    } else {
      ReadPlain(c, rest);
    }
  }

  lemma {:induction false} QuoteBodyReads(s: string, end: string, rest: string)
    requires ReadBody(end) == Some(Read("", rest))
    ensures ReadBody(QuoteBody(s) + end) == Some(Read(s, rest))
  {
    if s == "" {
      assert QuoteBody(s) + end == end;
    } else {
      var tail := QuoteBody(s[1..]) + end;
      Text.Assoc(QuoteChar(s[0]), QuoteBody(s[1..]), end);
      QuoteBodyReads(s[1..], end, rest);
      QuoteCharReads(s[0], tail);
      assert [s[0]] + s[1..] == s;
    }
  }

  lemma QuoteEndsBody(rest: string)
    ensures ReadBody(['"'] + rest) == Some(Read("", rest))
  {
    DropFirst('"', rest);
  }

  lemma QuoteReads(s: string, rest: string)
    ensures ReadString(Quote(s) + rest) == Some(Read(s, rest))
  {
    hide QuoteBody, ReadBody;
    var end := ['"'] + rest;
    assert Quote(s) + rest == ['"'] + (QuoteBody(s) + end);
    DropFirst('"', QuoteBody(s) + end);
    QuoteEndsBody(rest);
    QuoteBodyReads(s, end, rest);
  }

  /** Parse after print is the identity, for every name and every value. */
  lemma ParsePrintedObject(m: Member)
    ensures ParseObject(PrintObject(m)) == Some(m)
  {
    var value := Quote(m.value) + "}";
    var member := Quote(m.name) + ([':'] + value);
    assert PrintObject(m) == ['{'] + member;
    DropFirst('{', member);
    DropFirst(':', value);
    QuoteReads(m.name, [':'] + value);
    QuoteReads(m.value, "}");
  }

  predicate Printable(t: string)
  {
    forall c | c in t :: c >= ' '
  }

  lemma {:induction false} HexDigitsArePrintable(n: nat, width: nat)
    ensures Printable(HexDigits(n, width))
  {
    if width == 0 {
    } else {
      HexDigitsArePrintable(n / 16, width - 1);
    }
  }

  lemma QuoteCharIsPrintable(c: char)
    ensures Printable(QuoteChar(c))
  {
    if NeedsUnicodeEscape(c) {
      HexDigitsArePrintable(c as nat, 4);
    }
  }

  /** No raw control character: the printed text fits on one line. */
  lemma {:induction false} QuoteBodyIsPrintable(s: string)
    ensures Printable(QuoteBody(s))
  {
    if s == "" {
    } else {
      QuoteCharIsPrintable(s[0]);
      QuoteBodyIsPrintable(s[1..]);
    }
  }

  lemma PrintedIsPrintable(m: Member)
    ensures Printable(PrintObject(m))
  {
    QuoteBodyIsPrintable(m.name);
    QuoteBodyIsPrintable(m.value);
  }

  // ---- The printed text ----------------------------------------------------------------------------

  predicate NoEscape(c: char)
  {
    c >= ' ' && c !in "\"\\<>&" && c != '\U{2028}' && c != '\U{2029}'
  }

  lemma NoEscapeIsItself(c: char)
    requires NoEscape(c)
    ensures QuoteChar(c) == [c]
  {
  }

  /** No quote, backslash, control character, HTML character or line separator. */
  predicate NeedsNoEscape(s: string)
  {
    forall c | c in s :: NoEscape(c)
  }

  lemma {:induction false} PlainBodyIsItself(s: string)
    requires NeedsNoEscape(s)
    ensures QuoteBody(s) == s
  {
    if s == "" {
    } else {
      hide NoEscape, QuoteChar;
      assert s[0] in s && s == [s[0]] + s[1..];
      assert forall c | c in s[1..] :: c in s;
      NoEscapeIsItself(s[0]);
      PlainBodyIsItself(s[1..]);
    }
  }

  /** Texts without special characters stand between the quotes as they are. */
  lemma PlainObject(m: Member)
    requires NeedsNoEscape(m.name) && NeedsNoEscape(m.value)
    ensures PrintObject(m) == "{" + ("\"" + m.name + "\"") + ":" + ("\"" + m.value + "\"") + "}"
  {
    PlainBodyIsItself(m.name);
    PlainBodyIsItself(m.value);
  }

  lemma NextDigit(n: nat, width: nat)
    ensures HexDigits(n, width + 1) == HexDigits(n / 16, width) + [HexDigit(n % 16)]
  {
  }

  lemma FourDigits(n: nat)
    ensures HexDigits(n, 4) == [HexDigit(n / 16 / 16 / 16 % 16), HexDigit(n / 16 / 16 % 16), HexDigit(n / 16 % 16), HexDigit(n % 16)]
  {
    hide HexDigit, HexDigits;
    NextDigit(n, 3);
    NextDigit(n / 16, 2);
    NextDigit(n / 16 / 16, 1);
    NextDigit(n / 16 / 16 / 16, 0);
    assert HexDigits(n / 16 / 16 / 16 / 16, 0) == "";
  }

  /** The short escapes of section 7 of RFC 8259. */
  lemma ShortEscapes()
    ensures QuoteChar('"') == ['\\', '"'] && QuoteChar('\\') == ['\\', '\\']
    ensures QuoteChar('\n') == ['\\', 'n'] && QuoteChar('\r') == ['\\', 'r'] && QuoteChar('\t') == ['\\', 't']
    ensures QuoteChar('\U{8}') == ['\\', 'b'] && QuoteChar('\U{c}') == ['\\', 'f']
  {
  }

  /** Every other control character, the HTML characters and the line separators are written by number. */
  lemma LongEscapes(c: char)
    requires c < ' ' || c in "<>&" || c == '\U{2028}' || c == '\U{2029}'
    requires c !in "\n\r\t" && c != '\U{8}' && c != '\U{c}'
    ensures var n := c as int;
            QuoteChar(c) == ['\\', 'u'] + [HexDigit(n / 16 / 16 / 16 % 16), HexDigit(n / 16 / 16 % 16),
                                           HexDigit(n / 16 % 16), HexDigit(n % 16)]
  {
    hide HexDigits, HexDigit;
    FourDigits(c as nat);
  }
}
