/** The white space of the three libraries against each other: Go on code points, Go on UTF-8, JavaScript. */
module WhiteSpace {
  import opened GoBytes
  import opened Prompts
  import Sse

  /** UTF-8 of a code point below 0x10000 (section 3 of RFC 3629). */
  function Utf8(c: char): (e: Bytes)
    requires c as int < 0x10000
  {
    var n := c as int;
    if n < 0x80 then [n]
    else if n < 0x800 then [0xC0 + n / 64, 0x80 + n % 64]
    else [0xE0 + n / 4096, 0x80 + n / 64 % 64, 0x80 + n % 64]
  }

  /** A code point is white space to Go exactly if its UTF-8 is. */
  lemma SameInUtf8(c: char)
    requires c as int < 0x10000
    ensures IsSpace(Utf8(c)) <==> GoSpace(c)
  {
  }

  /** JavaScript also trims the byte order mark, and does not trim the next-line character. */
  lemma GoAndJavaScript(c: char)
    ensures Sse.JsSpace(c) <==> c == '\U{feff}' || (GoSpace(c) && c != '\U{85}')
  {
  }
}
