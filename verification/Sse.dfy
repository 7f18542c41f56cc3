/**
  Server-Sent Events text: what the server prints for a list of frames, how the client cuts the text
  it has received into events, and what the HTML Living Standard (section 9.2.6) makes of it.
 */
module Sse {
  import opened Text

  /** One event: its name and its one-line payload. */
  datatype Frame = Frame(name: string, payload: string)

  /** JavaScript's white space and line terminators. */
  predicate JsSpace(c: char)
  {
    || c in "\t\n\r " || c == '\U{b}' || c == '\U{c}' || c == '\U{a0}' || c == '\U{feff}' || c == '\U{1680}'
    || '\U{2000}' <= c <= '\U{200a}' || c == '\U{2028}' || c == '\U{2029}' || c == '\U{202f}' || c == '\U{205f}'
    || c == '\U{3000}'
  }

  // ---- Printing -----------------------------------------------------------------------------------

  const EVENT: string := "event:"
  const DATA: string := "data:"

  function EventLine(f: Frame): string { EVENT + f.name }
  function DataLine(f: Frame): string { DATA + f.payload }

  /** The two lines of a frame, without the blank line that ends it. */
  function Block(f: Frame): string { EventLine(f) + "\n" + DataLine(f) }

  /** `c.SSEvent(name, payload)`. */
  function PrintFrame(f: Frame): string { Block(f) + "\n\n" }

  /** The format on the wire. */
  lemma PrintFrameIs(f: Frame)
    ensures PrintFrame(f) == "event:" + f.name + "\n" + ("data:" + f.payload) + "\n\n"
  {
  }

  function PrintFrames(frames: seq<Frame>): (wire: string)
  {
    if frames == [] then "" else PrintFrame(frames[0]) + PrintFrames(frames[1..])
  }

  lemma {:induction false} PrintFramesSplits(a: seq<Frame>, b: seq<Frame>)
    ensures PrintFrames(a + b) == PrintFrames(a) + PrintFrames(b)
  {
    if a == [] {
      assert a + b == b;
    } else {
      assert (a + b)[1..] == a[1..] + b;
      PrintFramesSplits(a[1..], b);
    }
  }

  predicate OneLine(s: string)
  {
    '\n' !in s && '\r' !in s
  }

  /** A text on one line with no white space at either end. */
  predicate Plain(s: string)
  {
    s != "" && OneLine(s) && Trimmed(s, JsSpace)
  }

  predicate Clean(f: Frame)
  {
    Plain(f.name) && Plain(f.payload)
  }

  // ---- Cutting at blank lines ---------------------------------------------------------------------

  predicate BreaksAt(s: string, i: int)
  {
    0 <= i < |s| - 1 && s[i] == '\n' && s[i + 1] == '\n'
  }

  /** Where the first blank line starts, or the length of `s`. */
  function FirstBreak(s: string): (i: nat)
    ensures i == |s| || BreaksAt(s, i)
    ensures forall j | j < i :: !BreaksAt(s, j)
  {
    if BreaksAt(s, 0) || s == "" then 0
    else
      assert forall j | 0 < j :: BreaksAt(s, j) == BreaksAt(s[1..], j - 1);
      1 + FirstBreak(s[1..])
  }

  /** `s.split("\n\n")`. */
  function SplitBlank(s: string): (pieces: seq<string>)
    ensures |pieces| > 0
    decreases |s|
  {
    var i := FirstBreak(s);
    if i == |s| then [s] else [s[..i]] + SplitBlank(s[i + 2..])
  }

  function AllButLast(pieces: seq<string>): seq<string>
    requires |pieces| > 0
  {
    pieces[..|pieces| - 1]
  }

  function Last(pieces: seq<string>): string
    requires |pieces| > 0
  {
    pieces[|pieces| - 1]
  }

  /** Terminated events, and the unterminated rest. */
  datatype Received = Received(events: seq<string>, buffer: string)

  function Before(event: string, later: Received): Received
  {
    Received([event] + later.events, later.buffer)
  }

  function After(events: seq<string>, later: Received): Received
  {
    Received(events + later.events, later.buffer)
  }

  /** All of `s` at once: its events and its rest. */
  function Whole(s: string): (r: Received)
    decreases |s|
  {
    var i := FirstBreak(s);
    if i == |s| then Received([], s) else Before(s[..i], Whole(s[i + 2..]))
  }

  lemma {:induction false} SplitIsWhole(s: string)
    ensures SplitBlank(s) == Whole(s).events + [Whole(s).buffer]
    decreases |s|
  {
    var i := FirstBreak(s);
    if i == |s| {
    } else {
      SplitIsWhole(s[i + 2..]);
    }
  }

  lemma FirstBreakIs(s: string, i: nat)
    requires BreaksAt(s, i)
    requires forall j | 0 <= j < i :: !BreaksAt(s, j)
    ensures FirstBreak(s) == i
  {
  }

  lemma SplitHere(s: string, i: nat)
    requires BreaksAt(s, i)
    requires forall j | 0 <= j < i :: !BreaksAt(s, j)
    ensures Whole(s) == Before(s[..i], Whole(s[i + 2..]))
  {
    FirstBreakIs(s, i);
  }

  lemma BreakContinues(s: string, t: string, i: nat)
    requires BreaksAt(s, i) && forall j | 0 <= j < i :: !BreaksAt(s, j)
    ensures BreaksAt(s + t, i) && forall j | 0 <= j < i :: !BreaksAt(s + t, j)
    ensures (s + t)[..i] == s[..i] && (s + t)[i + 2..] == s[i + 2..] + t
  {
    forall j | 0 <= j < i
      ensures !BreaksAt(s + t, j)
    {
      assert !BreaksAt(s, j);
    }
  }

  lemma AfterBefore(event: string, events: seq<string>, later: Received)
    ensures Before(event, After(events, later)) == After([event] + events, later)
  {
  }

  /** More text never moves a cut that has been made: it only continues the unterminated rest. */
  lemma {:induction false} SplitContinues(s: string, t: string)
    ensures Whole(s + t) == After(Whole(s).events, Whole(Whole(s).buffer + t))
    decreases |s|
  {
    var i := FirstBreak(s);
    if i == |s| {
    } else {
      var s' := s[i + 2..];
      BreakContinues(s, t, i);
      SplitHere(s, i);
      SplitHere(s + t, i);
      SplitContinues(s', t);
      AfterBefore(s[..i], Whole(s').events, Whole(Whole(s').buffer + t));
    }
  }

  /** What is left over holds no blank line: nothing terminated waits for later text. */
  lemma {:induction false} RestHasNoBreak(s: string, j: int)
    ensures !BreaksAt(Whole(s).buffer, j)
    decreases |s|
  {
    var i := FirstBreak(s);
    if i == |s| {
    } else {
      RestHasNoBreak(s[i + 2..], j);
    }
  }

  /** The pieces of a split, written out again with the blank lines between them. */
  function Unsplit(events: seq<string>, buffer: string): string
  {
    if events == [] then buffer else events[0] + "\n\n" + Unsplit(events[1..], buffer)
  }

  /** No event holds a blank line, or a newline that would join the one after it. */
  ghost predicate Sealed(event: string)
  {
    forall j | j < |event| :: !BreaksAt(event + "\n\n", j)
  }

  lemma {:induction false} WholeIsUnsplit(s: string)
    ensures Unsplit(Whole(s).events, Whole(s).buffer) == s
    ensures forall e | e in Whole(s).events :: Sealed(e)
    decreases |s|
  {
    var i := FirstBreak(s);
    if i == |s| {
    } else {
      WholeIsUnsplit(s[i + 2..]);
      assert s == s[..i] + "\n\n" + s[i + 2..];
      forall j | j < i
        ensures !BreaksAt(s[..i] + "\n\n", j)
      {
        assert !BreaksAt(s, j);
      }
    }
  }

  lemma SealedCut(event: string, rest: string)
    requires Sealed(event)
    ensures Whole(event + "\n\n" + rest) == Before(event, Whole(rest))
  {
    var t := event + "\n\n";
    var s, n := t + rest, |event|;
    assert s[..n] == event && s[n + 2..] == rest;
    assert s[n] == t[n] && s[n + 1] == t[n + 1];
    forall j | 0 <= j < n
      ensures !BreaksAt(s, j)
    {
      assert !BreaksAt(t, j);
      assert s[j] == t[j] && s[j + 1] == t[j + 1];
    }
    SplitHere(s, n);
  }

  /** There is one way to cut a text into sealed events and a rest without blank lines. */
  lemma {:induction false} CutIsUnique(events: seq<string>, buffer: string)
    requires forall e | e in events :: Sealed(e)
    requires forall j :: !BreaksAt(buffer, j)
    ensures Whole(Unsplit(events, buffer)) == Received(events, buffer)
  {
    if events == [] {
    } else {
      CutIsUnique(events[1..], buffer);
      SealedCut(events[0], Unsplit(events[1..], buffer));
    }
  }

  // ---- The read loop ------------------------------------------------------------------------------

  /** The loop of the client over the network reads `parts`: append to the buffer, split, keep the last piece. */
  function Receive(parts: seq<string>): (r: Received)
  {
    if parts == [] then Received([], "")
    else
      var before := Receive(parts[..|parts| - 1]);
      var pieces := SplitBlank(before.buffer + Last(parts));
      Received(before.events + AllButLast(pieces), Last(pieces))
  }

  /** However the text is cut into reads, the loop dispatches what one split of the whole text gives. */
  lemma {:induction false} ChunkingIndependence(parts: seq<string>)
    ensures Receive(parts) == Whole(Concat(parts))
  {
    if parts == [] {
    } else {
      var init := parts[..|parts| - 1];
      ChunkingIndependence(init);
      SplitContinues(Concat(init), Last(parts));
      SplitIsWhole(Whole(Concat(init)).buffer + Last(parts));
    }
  }

  // ---- Reading one event --------------------------------------------------------------------------

  /** Index of the first `c`, or the length. */
  function IndexOf(s: string, c: char): (i: nat)
    ensures i <= |s|
    ensures i < |s| ==> s[i] == c
    ensures forall j | 0 <= j < i :: s[j] != c
  {
    if s == "" || s[0] == c then 0 else 1 + IndexOf(s[1..], c)
  }

  /** `s.split("\n")`. */
  function SplitLines(s: string): (lines: seq<string>)
    decreases |s|
  {
    var i := IndexOf(s, '\n');
    if i == |s| then [s] else [s[..i]] + SplitLines(s[i + 1..])
  }

  /** The trimmed text after `tag` in the last line that starts with it. */
  function LastField(lines: seq<string>, tag: string, absent: string): (value: string)
  {
    if lines == [] then absent
    else if tag <= Last(lines) then Trim(Last(lines)[|tag|..], JsSpace)
    else LastField(AllButLast(lines), tag, absent)
  }

  predicate StartsWith(line: string, tag: string)
  {
    tag <= line
  }

  /** `value` is the trimmed text after `tag` in the last line that starts with it, or `absent` if none does. */
  predicate TakenFrom(lines: seq<string>, tag: string, absent: string, value: string)
  {
    && ((forall i | 0 <= i < |lines| :: !StartsWith(lines[i], tag)) ==> value == absent)
    && forall i | 0 <= i < |lines| && StartsWith(lines[i], tag) && NoneAfter(lines, tag, i) ::
         value == Trim(lines[i][|tag|..], JsSpace)
  }

  /** No line after line `i` starts with the tag. */
  predicate NoneAfter(lines: seq<string>, tag: string, i: nat)
  {
    forall j | i < j < |lines| :: !StartsWith(lines[j], tag)
  }

  lemma TakenLast(lines: seq<string>, line: string, tag: string, absent: string)
    requires StartsWith(line, tag)
    ensures TakenFrom(lines + [line], tag, absent, Trim(line[|tag|..], JsSpace))
  {
    assert (lines + [line])[|lines|] == line;
  }

  lemma TakenBefore(lines: seq<string>, line: string, tag: string, absent: string, value: string)
    requires TakenFrom(lines, tag, absent, value) && !StartsWith(line, tag)
    ensures TakenFrom(lines + [line], tag, absent, value)
  {
    hide StartsWith, Trim;
    var more := lines + [line];
    assert forall i | 0 <= i < |lines| :: more[i] == lines[i];
    forall i | 0 <= i < |more| && StartsWith(more[i], tag) && NoneAfter(more, tag, i)
      ensures i < |lines| && NoneAfter(lines, tag, i)
    {
      assert more[|lines|] == line;
    }
  }

  lemma {:induction false} LastFieldIs(lines: seq<string>, tag: string, absent: string)
    ensures TakenFrom(lines, tag, absent, LastField(lines, tag, absent))
  {
    if lines == [] {
    } else {
      var init, last := AllButLast(lines), Last(lines);
      assert lines == init + [last];
      LastFieldIs(init, tag, absent);
      hide TakenFrom, Trim;
      if StartsWith(last, tag) {
        TakenLast(init, last, tag, absent);
      } else {
        TakenBefore(init, last, tag, absent, LastField(init, tag, absent));
      }
    }
  }

  /** What the client takes an event to be: type `message` and empty data unless lines say otherwise. */
  function Interpret(event: string): (f: Frame)
  {
    var lines := SplitLines(event);
    Frame(LastField(lines, EVENT, "message"), LastField(lines, DATA, ""))
  }

  function InterpretAll(events: seq<string>): (frames: seq<Frame>)
    ensures |frames| == |events|
    ensures forall i | 0 <= i < |events| :: frames[i] == Interpret(events[i])
  {
    seq(|events|, i requires 0 <= i < |events| => Interpret(events[i]))
  }

  /** The line scan of the client over one event. */
  method ScanLines(event: string) returns (eventType: string, dataStr: string)
    ensures Frame(eventType, dataStr) == Interpret(event)
    ensures TakenFrom(SplitLines(event), "event:", "message", eventType)
    ensures TakenFrom(SplitLines(event), "data:", "", dataStr)
  {
    hide TakenFrom, SplitLines;
    LastFieldIs(SplitLines(event), EVENT, "message");
    LastFieldIs(SplitLines(event), DATA, "");
    var lines := SplitLines(event);
    eventType := "message";
    dataStr := "";
    for i := 0 to |lines|
      invariant eventType == LastField(lines[..i], EVENT, "message")
      invariant dataStr == LastField(lines[..i], DATA, "")
    {
      var line := lines[i];
      assert AllButLast(lines[..i + 1]) == lines[..i] && Last(lines[..i + 1]) == line;
      DifferentTags(line);
      if EVENT <= line { eventType := Trim(line[6..], JsSpace); }
      if DATA <= line { dataStr := Trim(line[5..], JsSpace); }
    }
    assert lines[..|lines|] == lines;
  }

  lemma DifferentTags(line: string)
    ensures !(EVENT <= line && DATA <= line)
  {
    assert EVENT <= line ==> line[0] == EVENT[0];
    assert DATA <= line ==> line[0] == DATA[0];
  }

  // ---- Print, then parse --------------------------------------------------------------------------

  lemma OneLineLabelled(tag: string, s: string)
    requires tag == EVENT || tag == DATA
    requires OneLine(s)
    ensures OneLine(tag + s)
  {
    assert OneLine(EVENT) && OneLine(DATA);
  }

  lemma {:induction false} SplitTwoLines(a: string, b: string)
    requires OneLine(a) && OneLine(b)
    ensures SplitLines(a + "\n" + b) == [a] + [b]
  {
    var s, i := a + "\n" + b, |a|;
    assert s[..i] == a && s[i + 1..] == b && s[i] == '\n';
    assert forall j | 0 <= j < i :: s[j] == a[j];
    assert IndexOf(s, '\n') == i;
    assert IndexOf(b, '\n') == |b|;
  }

  lemma TwoLinesSealed(a: string, b: string)
    requires OneLine(a) && OneLine(b) && b != ""
    ensures Sealed(a + "\n" + b)
  {
    var s := a + "\n" + b;
    var t, i := s + "\n\n", |a|;
    assert forall j | 0 <= j < |s| :: t[j] == s[j];
    assert forall j | 0 <= j < i :: s[j] == a[j];
    assert forall j | 0 <= j < |b| :: s[i + 1 + j] == b[j];
    forall j | j < |s|
      ensures !BreaksAt(t, j)
    {
      if j == i {
        assert t[i + 1] == b[0];
      } else if j > i {
        assert t[j] == b[j - i - 1];
      } else if j >= 0 {
        assert t[j] == a[j];
      }
    }
  }

  lemma FieldTaken(lines: seq<string>, tag: string, value: string, absent: string)
    requires Trimmed(value, JsSpace)
    ensures LastField(lines + [tag + value], tag, absent) == value
  {
    assert Last(lines + [tag + value]) == tag + value;
    assert (tag + value)[|tag|..] == value;
    TrimFixes(value, JsSpace);
  }

  lemma FieldSkipped(lines: seq<string>, line: string, tag: string, absent: string)
    requires !(tag <= line)
    ensures LastField(lines + [line], tag, absent) == LastField(lines, tag, absent)
  {
    assert AllButLast(lines + [line]) == lines;
  }

  lemma InterpretBlock(f: Frame)
    requires Clean(f)
    ensures Interpret(Block(f)) == f
  {
    OneLineLabelled(EVENT, f.name);
    OneLineLabelled(DATA, f.payload);
    SplitTwoLines(EventLine(f), DataLine(f));
    DifferentTags(DataLine(f));
    FieldTaken([EventLine(f)], DATA, f.payload, "");
    FieldSkipped([EventLine(f)], DataLine(f), EVENT, "message");
    assert [EventLine(f)] == [] + [EventLine(f)];
    FieldTaken([], EVENT, f.name, "message");
  }

  lemma SplitBlock(f: Frame, rest: string)
    requires Clean(f)
    ensures Whole(PrintFrame(f) + rest) == Before(Block(f), Whole(rest))
  {
    OneLineLabelled(EVENT, f.name);
    OneLineLabelled(DATA, f.payload);
    TwoLinesSealed(EventLine(f), DataLine(f));
    SealedCut(Block(f), rest);
  }

  lemma InterpretCons(event: string, events: seq<string>)
    ensures InterpretAll([event] + events) == [Interpret(event)] + InterpretAll(events)
  {
  }

  /** The client recovers exactly the frames the server printed, and nothing is left over. */
  lemma {:induction false} ParsePrinted(frames: seq<Frame>)
    requires forall f | f in frames :: Clean(f)
    ensures InterpretAll(Whole(PrintFrames(frames)).events) == frames
    ensures Whole(PrintFrames(frames)).buffer == ""
  {
    if frames == [] {
    } else {
      var f, tail := frames[0], frames[1..];
      ParsePrinted(tail);
      SplitBlock(f, PrintFrames(tail));
      InterpretBlock(f);
      InterpretCons(Block(f), Whole(PrintFrames(tail)).events);
      assert frames == [f] + tail;
    }
  }

  /** A text cut anywhere delivers a prefix of the frames, and all of them only if nothing is lost. */
  lemma ParseTruncated(frames: seq<Frame>, received: string, lost: string)
    requires forall f | f in frames :: Clean(f)
    requires received + lost == PrintFrames(frames)
    ensures InterpretAll(Whole(received).events) <= frames
    ensures InterpretAll(Whole(received).events) == frames <==> lost == ""
  {
    hide Interpret, Clean;
    ParsePrinted(frames);
    SplitContinues(received, lost);
    assert Whole(received).events <= Whole(PrintFrames(frames)).events;
    var rest := Whole(received).buffer + lost;
    if InterpretAll(Whole(received).events) == frames {
      assert |Whole(received).events| == |Whole(PrintFrames(frames)).events|;
      assert Whole(rest).events == [];
      assert Whole(rest) == Received([], rest);
      assert rest == "";
    }
    if lost == "" {
      assert received + lost == received;
    }
  }
}
