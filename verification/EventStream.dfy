/**
  The interpretation of an event stream by the HTML Living Standard, section 9.2.6, as a reference for
  the client's line scan. Fields other than `event` and `data` do not affect names and payloads.
 */
module EventStream {
  import opened Sse
  import opened Text

  /** The data buffer, the event type buffer and the events dispatched. */
  datatype State = State(data: string, eventType: string, dispatched: seq<Frame>)

  predicate LineEnd(c: char)
  {
    c == '\n' || c == '\r'
  }

  function EndOfLine(s: string): (i: nat)
    ensures i <= |s|
    ensures i < |s| ==> LineEnd(s[i])
    ensures forall j | 0 <= j < i :: !LineEnd(s[j])
  {
    if s == "" || LineEnd(s[0]) then 0 else 1 + EndOfLine(s[1..])
  }

  function Dispatch(st: State): State
  {
    if st.data == "" then State("", "", st.dispatched)
    else
      var name := if st.eventType == "" then "message" else st.eventType;
      State("", "", st.dispatched + [Frame(name, st.data[..|st.data| - 1])])
  }

  function ProcessField(st: State, field: string, value: string): State
  {
    if field == "event" then st.(eventType := value)
    else if field == "data" then st.(data := st.data + value + "\n")
    else st
  }

  function DropSpace(value: string): string
  {
    if value != "" && value[0] == ' ' then value[1..] else value
  }

  function ProcessLine(st: State, line: string): State
  {
    var colon := IndexOf(line, ':');
    if line == "" then Dispatch(st)
    else if colon == 0 then st
    else if colon == |line| then ProcessField(st, line, "")
    else ProcessField(st, line[..colon], DropSpace(line[colon + 1..]))
  }

  /** Line by line; an unterminated last line cannot end an event. */
  function Process(st: State, s: string): State
    decreases |s|
  {
    var i := EndOfLine(s);
    if i == |s| then st
    else if s[i] == '\r' && i + 1 < |s| && s[i + 1] == '\n' then Process(ProcessLine(st, s[..i]), s[i + 2..])
    else Process(ProcessLine(st, s[..i]), s[i + 1..])
  }

  function DropByteOrderMark(s: string): string
  {
    if s != "" && s[0] == '\U{feff}' then s[1..] else s
  }

  /** The events the standard dispatches for a whole stream. */
  function StandardEvents(stream: string): (frames: seq<Frame>)
  {
    Process(State("", "", []), DropByteOrderMark(stream)).dispatched
  }

  lemma FirstLine(st: State, line: string, rest: string)
    requires OneLine(line)
    ensures Process(st, line + "\n" + rest) == Process(ProcessLine(st, line), rest)
  {
    var s := line + "\n" + rest;
    assert forall j | 0 <= j < |line| :: s[j] == line[j];
    assert s[|line|] == '\n' && EndOfLine(s) == |line|;
    assert s[..|line|] == line && s[|line| + 1..] == rest;
  }

  lemma BlankLine(st: State, rest: string)
    ensures Process(st, "\n" + rest) == Process(Dispatch(st), rest)
  {
    assert ("\n" + rest)[..0] == "" && ("\n" + rest)[1..] == rest;
  }

  lemma FirstColon(tag: string, value: string)
    requires ':' !in tag && tag != ""
    ensures IndexOf(tag + ":" + value, ':') == |tag|
    ensures (tag + ":" + value)[..|tag|] == tag && (tag + ":" + value)[|tag| + 1..] == value
  {
    var s := tag + ":" + value;
    assert s[|tag|] == ':' && forall j | 0 <= j < |tag| :: s[j] == tag[j];
  }

  lemma FieldLine(st: State, tag: string, value: string)
    requires ':' !in tag && tag != ""
    requires value != "" && value[0] != ' '
    ensures ProcessLine(st, tag + ":" + value) == ProcessField(st, tag, value)
  {
    FirstColon(tag, value);
  }

  lemma EventField(st: State, name: string)
    requires name != "" && name[0] != ' '
    ensures ProcessLine(st, EVENT + name) == st.(eventType := name)
  {
    assert EVENT == "event" + ":";
    FieldLine(st, "event", name);
  }

  lemma DataField(st: State, value: string)
    requires value != "" && value[0] != ' '
    ensures ProcessLine(st, DATA + value) == st.(data := st.data + value + "\n")
  {
    assert DATA == "data" + ":";
    FieldLine(st, "data", value);
    DifferentNames();
  }

  lemma DifferentNames()
    ensures "data" != "event"
  {
    assert |"data"| != |"event"|;
  }

  lemma ThreeLines(a: string, b: string, rest: string)
    ensures a + "\n" + b + "\n\n" + rest == a + "\n" + (b + "\n" + ("\n" + rest))
  {
  }

  /** Two lines and a blank one. */
  lemma {:induction false} TwoLines(st: State, a: string, b: string, rest: string)
    requires OneLine(a) && OneLine(b)
    ensures Process(st, a + "\n" + b + "\n\n" + rest) == Process(Dispatch(ProcessLine(ProcessLine(st, a), b)), rest)
  {
    ThreeLines(a, b, rest);
    FirstLine(st, a, b + "\n" + ("\n" + rest));
    FirstLine(ProcessLine(st, a), b, "\n" + rest);
    BlankLine(ProcessLine(ProcessLine(st, a), b), rest);
  }

  lemma DispatchData(data: string, eventType: string, done: seq<Frame>)
    ensures Dispatch(State(data + "\n", eventType, done))
            == State("", "", done + [Frame(if eventType == "" then "message" else eventType, data)])
  {
    assert (data + "\n")[..|data + "\n"| - 1] == data;
  }

  lemma ProcessFrame(f: Frame, done: seq<Frame>, rest: string)
    requires Clean(f)
    ensures Process(State("", "", done), PrintFrame(f) + rest) == Process(State("", "", done + [f]), rest)
  {
    OneLineLabelled(EVENT, f.name);
    OneLineLabelled(DATA, f.payload);
    var st := State("", "", done);
    TwoLines(st, EventLine(f), DataLine(f), rest);
    EventField(st, f.name);
    DataField(st.(eventType := f.name), f.payload);
    assert "" + f.payload == f.payload;
    DispatchData(f.payload, f.name, done);
  }

  lemma ProcessNothing(st: State)
    ensures Process(st, "") == st
  {
  }

  lemma {:induction false} ProcessFrames(frames: seq<Frame>, done: seq<Frame>)
    requires forall f | f in frames :: Clean(f)
    ensures Process(State("", "", done), PrintFrames(frames)).dispatched == done + frames
  {
    hide Process, PrintFrame;
    if frames == [] {
      ProcessNothing(State("", "", done));
      assert done + [] == done;
    } else {
      ProcessFrame(frames[0], done, PrintFrames(frames[1..]));
      ProcessFrames(frames[1..], done + [frames[0]]);
      assert done + [frames[0]] + frames[1..] == done + frames;
    }
  }

  lemma NoByteOrderMark(frames: seq<Frame>)
    ensures DropByteOrderMark(PrintFrames(frames)) == PrintFrames(frames)
  {
    if frames == [] {
    } else {
      assert PrintFrames(frames)[0] == PrintFrame(frames[0])[0] == EVENT[0];
    }
  }

  /** On what the server prints, the client reads exactly the events the standard defines. */
  lemma ClientMatchesStandard(frames: seq<Frame>)
    requires forall f | f in frames :: Clean(f)
    ensures StandardEvents(PrintFrames(frames)) == InterpretAll(Whole(PrintFrames(frames)).events) == frames
  {
    hide Process, DropByteOrderMark, PrintFrames, Whole, InterpretAll;
    ParsePrinted(frames);
    NoByteOrderMark(frames);
    ProcessFrames(frames, []);
    assert [] + frames == frames;
  }

  // ---- Off the server's format ---------------------------------------------------------------------

  /** The lines with a newline between each and the next. */
  function JoinLines(lines: seq<string>): (text: string)
    requires lines != []
  {
    if |lines| == 1 then lines[0] else lines[0] + "\n" + JoinLines(lines[1..])
  }

  function DataLines(values: seq<string>): (lines: seq<string>)
    ensures |lines| == |values|
    ensures forall i | 0 <= i < |values| :: lines[i] == DATA + values[i]
  {
    seq(|values|, i requires 0 <= i < |values| => DATA + values[i])
  }

  predicate AllPlain(values: seq<string>)
  {
    forall v | v in values :: Plain(v)
  }

  predicate AllLines(lines: seq<string>)
  {
    forall l | l in lines :: l != "" && OneLine(l)
  }

  lemma DataLinesAreLines(values: seq<string>)
    requires AllPlain(values)
    ensures AllLines(DataLines(values))
  {
    hide Plain;
    forall i | 0 <= i < |values|
      ensures DataLines(values)[i] != "" && OneLine(DataLines(values)[i])
    {
      assert values[i] in values;
      DataLineIsLine(values[i]);
    }
  }

  lemma DataLineIsLine(value: string)
    requires Plain(value)
    ensures DATA + value != "" && OneLine(DATA + value)
  {
    OneLineLabelled(DATA, value);
  }

  lemma FirstOfLines(lines: seq<string>)
    requires lines != [] && AllLines(lines)
    ensures JoinLines(lines) != "" && lines[0] != "" && JoinLines(lines)[0] == lines[0][0] != '\n'
  {
    assert lines[0] in lines && lines[0][0] in lines[0];
  }

  lemma {:induction false} SplitJoined(lines: seq<string>)
    requires lines != [] && AllLines(lines)
    ensures SplitLines(JoinLines(lines)) == lines
  {
    var s, line := JoinLines(lines), lines[0];
    assert line in lines;
    if |lines| == 1 {
      NoNewline(line);
    } else {
      assert forall l | l in lines[1..] :: l in lines;
      SplitJoined(lines[1..]);
      NewlineAfter(line, JoinLines(lines[1..]));
    }
  }

  lemma JoinCons(line: string, lines: seq<string>)
    requires lines != []
    ensures JoinLines([line] + lines) == line + "\n" + JoinLines(lines)
  {
    assert ([line] + lines)[1..] == lines;
  }

  /** Splitting at newlines cuts nothing away, and leaves no newline in a line. */
  lemma {:induction false} LinesRejoin(s: string)
    ensures SplitLines(s) != [] && JoinLines(SplitLines(s)) == s
    ensures forall l | l in SplitLines(s) :: '\n' !in l
    decreases |s|
  {
    var i := IndexOf(s, '\n');
    if i == |s| {
    } else {
      var rest := s[i + 1..];
      LinesRejoin(rest);
      assert SplitLines(s) == [s[..i]] + SplitLines(rest);
      hide SplitLines;
      JoinCons(s[..i], SplitLines(rest));
      assert s == s[..i] + "\n" + rest;
    }
  }

  lemma NoNewline(line: string)
    requires OneLine(line)
    ensures SplitLines(line) == [line]
  {
    assert forall j | 0 <= j < |line| :: line[j] in line;
  }

  lemma NewlineAfter(line: string, rest: string)
    requires OneLine(line)
    ensures SplitLines(line + "\n" + rest) == [line] + SplitLines(rest)
  {
    var s := line + "\n" + rest;
    assert s[|line|] == '\n';
    assert forall j | 0 <= j < |line| :: s[j] == line[j] && line[j] in line;
    assert IndexOf(s, '\n') == |line|;
    assert s[..|line|] == line && s[|line| + 1..] == rest;
  }

  lemma LineSealed(line: string, rest: string)
    requires OneLine(line) && Sealed(rest) && rest != "" && rest[0] != '\n'
    ensures Sealed(line + "\n" + rest)
  {
    var s, n := line + "\n" + rest, |line|;
    var t := s + "\n\n";
    assert t[n + 1..] == rest + "\n\n";
    forall j | j < |s|
      ensures !BreaksAt(t, j)
    {
      if j > n {
        assert !BreaksAt(rest + "\n\n", j - n - 1);
        assert t[j] == (rest + "\n\n")[j - n - 1] && t[j + 1] == (rest + "\n\n")[j - n];
      } else if j == n {
        assert t[n + 1] == rest[0];
      } else if j >= 0 {
        assert t[j] == line[j] && line[j] in line;
      }
    }
  }

  lemma OneLineSealed(line: string)
    requires OneLine(line)
    ensures Sealed(line)
  {
    forall j | j < |line|
      ensures !BreaksAt(line + "\n\n", j)
    {
      if j >= 0 {
        assert (line + "\n\n")[j] == line[j] && line[j] in line;
      }
    }
  }

  lemma {:induction false} JoinedIsSealed(lines: seq<string>)
    requires lines != [] && AllLines(lines)
    ensures Sealed(JoinLines(lines))
  {
    hide Sealed;
    assert lines[0] in lines;
    if |lines| == 1 {
      OneLineSealed(lines[0]);
    } else {
      assert forall l | l in lines[1..] :: l in lines;
      JoinedIsSealed(lines[1..]);
      FirstOfLines(lines[1..]);
      LineSealed(lines[0], JoinLines(lines[1..]));
    }
  }

  lemma {:induction false} NoEventField(values: seq<string>)
    ensures LastField(DataLines(values), EVENT, "message") == "message"
  {
    if values == [] {
    } else {
      var init, last := values[..|values| - 1], values[|values| - 1];
      assert DataLines(values) == DataLines(init) + [DATA + last];
      NoEventField(init);
      DifferentTags(DATA + last);
      FieldSkipped(DataLines(init), DATA + last, EVENT, "message");
    }
  }

  /** The client keeps the last value. */
  lemma ClientKeepsLast(values: seq<string>)
    requires values != [] && AllPlain(values)
    ensures InterpretAll(Whole(JoinLines(DataLines(values)) + "\n\n").events) == [Frame("message", values[|values| - 1])]
  {
    hide JoinLines, SplitLines, LastField, Sealed, Plain;
    var lines := DataLines(values);
    var event := JoinLines(lines);
    var init, last := values[..|values| - 1], values[|values| - 1];
    DataLinesAreLines(values);
    JoinedIsSealed(lines);
    assert event + "\n\n" + "" == event + "\n\n";
    SealedCut(event, "");
    SplitJoined(lines);
    NoEventField(values);
    assert lines == DataLines(init) + [DATA + last];
    assert last in values && Trimmed(last, JsSpace) by { PlainIsTrimmed(last); }
    FieldTaken(DataLines(init), DATA, last, "");
    assert InterpretAll([event]) == [Interpret(event)];
  }

  lemma PlainIsTrimmed(s: string)
    ensures Plain(s) ==> Trimmed(s, JsSpace) && s != "" && s[0] != ' '
  {
  }

  lemma OneDataLine(st: State, value: string, rest: string)
    requires Plain(value)
    ensures Process(st, DATA + value + "\n" + rest) == Process(st.(data := st.data + value + "\n"), rest)
  {
    hide Process;
    DataLineIsLine(value);
    PlainIsTrimmed(value);
    DataField(st, value);
    FirstLine(st, DATA + value, rest);
  }

  lemma JoinMore(lines: seq<string>)
    requires lines != []
    ensures JoinLines(lines) == if |lines| == 1 then lines[0] else lines[0] + "\n" + JoinLines(lines[1..])
  {
  }

  lemma Regroup(a: string, b: string, rest: string)
    ensures a + "\n" + b + "\n" + rest == a + "\n" + (b + "\n" + rest)
  {
  }

  lemma RegroupData(data: string, value: string, later: string)
    ensures data + value + "\n" + later + "\n" == data + (value + "\n" + later) + "\n"
  {
  }

  lemma {:induction false} ProcessData(st: State, values: seq<string>, rest: string)
    requires values != [] && AllPlain(values)
    ensures Process(st, JoinLines(DataLines(values)) + "\n" + rest)
            == Process(st.(data := st.data + JoinLines(values) + "\n"), rest)
    decreases |values|
  {
    hide Process, Plain, JoinLines, DATA, DataLines;
    var value, later := values[0], values[1..];
    assert value in values;
    JoinMore(values);
    JoinMore(DataLines(values));
    if |values| == 1 {
      OneDataLine(st, value, rest);
    } else {
      assert forall v | v in later :: v in values;
      assert DataLines(values)[1..] == DataLines(later);
      Regroup(DATA + value, JoinLines(DataLines(later)), rest);
      OneDataLine(st, value, JoinLines(DataLines(later)) + "\n" + rest);
      ProcessData(st.(data := st.data + value + "\n"), later, rest);
      RegroupData(st.data, value, JoinLines(later));
    }
  }

  /** The standard joins the values. */
  lemma StandardJoins(values: seq<string>)
    requires values != [] && AllPlain(values)
    ensures StandardEvents(JoinLines(DataLines(values)) + "\n\n") == [Frame("message", JoinLines(values))]
  {
    hide Process, JoinLines, Plain;
    var text := JoinLines(DataLines(values));
    var st := State("", "", []);
    DataLinesAreLines(values);
    FirstOfLines(DataLines(values));
    assert text + "\n\n" == text + "\n" + "\n" && (text + "\n\n")[0] == text[0] == DATA[0];
    ProcessData(st, values, "\n");
    var st' := st.(data := JoinLines(values) + "\n");
    assert "" + JoinLines(values) == JoinLines(values);
    assert "\n" + "" == "\n";
    BlankLine(st', "");
    ProcessNothing(Dispatch(st'));
    DispatchData(JoinLines(values), "", []);
  }

  lemma {:induction false} JoinedIsLonger(lines: seq<string>)
    requires lines != []
    ensures |JoinLines(lines)| >= |lines[|lines| - 1]| + |lines| - 1
  {
    if |lines| == 1 {
    } else {
      JoinedIsLonger(lines[1..]);
    }
  }

  /**
    An event of data lines alone: the standard joins the values, the client keeps the last, so they agree
    exactly when there is only one.
   */
  lemma DataLinesDiffer(values: seq<string>)
    requires values != [] && AllPlain(values)
    ensures var wire := JoinLines(DataLines(values)) + "\n\n";
            && StandardEvents(wire) == [Frame("message", JoinLines(values))]
            && InterpretAll(Whole(wire).events) == [Frame("message", values[|values| - 1])]
            && (StandardEvents(wire) == InterpretAll(Whole(wire).events) <==> |values| == 1)
  {
    hide Process, Plain, StandardEvents, Whole, InterpretAll;
    StandardJoins(values);
    ClientKeepsLast(values);
    JoinedIsLonger(values);
    if JoinLines(values) == values[|values| - 1] {
      assert |values| == 1;
    } else {
      assert [Frame("message", JoinLines(values))][0] != [Frame("message", values[|values| - 1])][0];
    }
  }
}
