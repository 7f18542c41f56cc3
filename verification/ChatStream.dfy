/**
  One streamed reply from end to end: the handler that prints and stores it, and the browser loop that
  reads and shows it.
 */
module ChatStream {
  import opened ChatStore
  import opened Html
  import opened Json
  import opened Sse
  import opened Text
  import opened Wrappers

  // ---- The browser ---------------------------------------------------------------------------------

  const ERROR_OPEN: string := "<br><span style=\"color: #dc2626;\">[Error: "
  const ERROR_CLOSE: string := "]</span>"

  /** `escapeHtml(parsed.chunk)`; a text that does not parse, or has no such member, adds nothing. */
  function ChunkHtml(data: string): string
  {
    match ParseObject(data)
    case Some(m) => if m.name == "chunk" then EscapeHtml(m.value) else ""
    case None => ""
  }

  /** `parsed.error || dataStr`. */
  function ErrorText(data: string): string
  {
    match ParseObject(data)
    case Some(m) => if m.name == "error" && m.value != "" then m.value else data
    case None => data
  }

  /** What one event appends to the bubble. */
  function Fragment(f: Frame): (html: string)
  {
    if f.name == "chunk" && f.payload != "" then ChunkHtml(f.payload)
    else if f.name == "error" && f.payload != "" then ERROR_OPEN + EscapeHtml(ErrorText(f.payload)) + ERROR_CLOSE
    else ""
  }

  /** The red note that an error appends. */
  function ErrorNote(text: string): (html: string)
  {
    "<br><span style=\"color: #dc2626;\">[Error: " + EscapeHtml(text) + "]</span>"
  }

  /**
    A chunk event adds its escaped chunk, an error event its escaped error or, for want of one, its escaped data;
    what does not parse adds no chunk, and no other event adds anything.
   */
  lemma FragmentTable(data: string, name: string, m: Member)
    requires data != ""
    ensures ParseObject(data) == Some(m) ==>
              && Fragment(Frame("chunk", data)) == (if m.name == "chunk" then EscapeHtml(m.value) else "")
              && Fragment(Frame("error", data)) == ErrorNote(if m.name == "error" && m.value != "" then m.value else data)
    ensures ParseObject(data) == None ==>
              Fragment(Frame("chunk", data)) == "" && Fragment(Frame("error", data)) == ErrorNote(data)
    ensures Fragment(Frame("chunk", "")) == "" && Fragment(Frame("error", "")) == ""
    ensures name != "chunk" && name != "error" ==> Fragment(Frame(name, data)) == ""
  {
    hide EscapeHtml, ParseObject;
  }

  function Render(frames: seq<Frame>): (html: string)
  {
    if frames == [] then "" else Render(frames[..|frames| - 1]) + Fragment(frames[|frames| - 1])
  }

  class AiBubble {
    var innerHTML: string

    constructor ()
    {
      innerHTML := "";
    }
  }

  method ShowEvent(event: string, bubble: AiBubble)
    modifies bubble
    ensures bubble.innerHTML == old(bubble.innerHTML) + Fragment(Interpret(event))
  {
    hide EscapeHtml, ParseObject, Interpret;
    var eventType, dataStr := ScanLines(event);
    if eventType == "chunk" && dataStr != "" {
      bubble.innerHTML := bubble.innerHTML + ChunkHtml(dataStr);
    } else if eventType == "error" && dataStr != "" {
      var errMsg := ErrorText(dataStr);
      bubble.innerHTML := bubble.innerHTML + (ERROR_OPEN + EscapeHtml(errMsg) + ERROR_CLOSE);
    }
  }

  method ShowEvents(events: seq<string>, bubble: AiBubble)
    modifies bubble
    ensures bubble.innerHTML == old(bubble.innerHTML) + Render(InterpretAll(events))
  {
    hide Interpret, Fragment;
    var shown := bubble.innerHTML;
    for i := 0 to |events|
      invariant bubble.innerHTML == shown + Render(InterpretAll(events)[..i])
    {
      ShowEvent(events[i], bubble);
      assert InterpretAll(events)[..i + 1][..i] == InterpretAll(events)[..i];
    }
    assert InterpretAll(events)[..|events|] == InterpretAll(events);
  }

  /** What the reads of one response bring, and the message of the error the last read ends in, if it does. */
  datatype Delivery = Delivery(parts: seq<string>, error: Option<string>)

  const FAILED_OPEN: string := "<span style=\"color: #dc2626;\">エラー: "
  const FAILED_CLOSE: string := "</span>"

  /** Replaces whatever the bubble held when a read fails. */
  function FailedHtml(message: string): (html: string)
  {
    FAILED_OPEN + EscapeHtml(message) + FAILED_CLOSE
  }

  /** The loop over `reader.read()`: what is shown depends on the text received, not on its cuts. */
  method ReadAll(parts: seq<string>, bubble: AiBubble) returns (buffer: string)
    modifies bubble
    ensures bubble.innerHTML == Render(InterpretAll(Whole(Concat(parts)).events))
    ensures buffer == Whole(Concat(parts)).buffer
  {
    hide EscapeHtml, ParseObject, Interpret, InterpretAll, Fragment, SplitBlank, Whole;
    bubble.innerHTML := "";
    buffer := "";
    for i := 0 to |parts|
      invariant Received(Receive(parts[..i]).events, buffer) == Receive(parts[..i])
      invariant bubble.innerHTML == Render(InterpretAll(Receive(parts[..i]).events))
    {
      ghost var before := Receive(parts[..i]).events;
      assert parts[..i + 1][..i] == parts[..i] && Last(parts[..i + 1]) == parts[i];
      buffer := buffer + parts[i];
      var pieces := SplitBlank(buffer);
      buffer := Last(pieces);
      ShowEvents(AllButLast(pieces), bubble);
      InterpretSplits(before, AllButLast(pieces));
      RenderSplits(InterpretAll(before), InterpretAll(AllButLast(pieces)));
    }
    assert parts[..|parts|] == parts;
    ChunkingIndependence(parts);
  }

  /** The loop and its `catch`: a read that fails takes back all that was shown. */
  method ReceiveStream(d: Delivery, bubble: AiBubble)
    modifies bubble
    ensures d.error.None? ==> bubble.innerHTML == Render(InterpretAll(Whole(Concat(d.parts)).events))
    ensures d.error.Some? ==> bubble.innerHTML == FailedHtml(d.error.value)
    ensures d.error.Some? ==>
              bubble.innerHTML == "<span style=\"color: #dc2626;\">エラー: " + EscapeHtml(d.error.value) + "</span>"
  {
    hide EscapeHtml, Render, InterpretAll, Whole;
    var _ := ReadAll(d.parts, bubble);
    if d.error.Some? {
      bubble.innerHTML := FAILED_OPEN + EscapeHtml(d.error.value) + FAILED_CLOSE;
    }
  }

  lemma InterpretSplits(a: seq<string>, b: seq<string>)
    ensures InterpretAll(a + b) == InterpretAll(a) + InterpretAll(b)
  {
  }

  lemma {:induction false} RenderSplits(a: seq<Frame>, b: seq<Frame>)
    ensures Render(a + b) == Render(a) + Render(b)
  {
    if b == [] {
      assert a + b == a;
    } else {
      var init, last := b[..|b| - 1], b[|b| - 1];
      assert (a + b)[..|a + b| - 1] == a + init;
      RenderSplits(a, init);
    }
  }

  // ---- The server ----------------------------------------------------------------------------------

  const INTERRUPTED: string := "AI generation interrupted"
  const NOT_SAVED: string := "failed to persist assistant message"

  /** An object as the JSON encoder prints it: one line between braces. */
  predicate JsonText(t: string)
  {
    |t| >= 2 && t[0] == '{' && t[|t| - 1] == '}' && Printable(t)
  }

  function ChunkFrame(chunk: string): Frame { Frame("chunk", PrintObject(Member("chunk", chunk))) }
  function ErrorFrame(text: string): Frame { Frame("error", PrintObject(Member("error", text))) }

  function ChunkFrames(chunks: seq<string>): (frames: seq<Frame>)
    ensures |frames| == |chunks|
    ensures forall i | 0 <= i < |chunks| :: frames[i] == Frame("chunk", PrintObject(Member("chunk", chunks[i])))
  {
    seq(|chunks|, i requires 0 <= i < |chunks| => ChunkFrame(chunks[i]))
  }

  /** How a stream ends after its last chunk. */
  datatype Ending = Interrupted | NotSaved | Saved(message: Message)

  function EndFrame(e: Ending, json: Message -> string): Frame
  {
    match e
    case Interrupted => ErrorFrame(INTERRUPTED)
    case NotSaved => ErrorFrame(NOT_SAVED)
    case Saved(m) => Frame("done", json(m))
  }

  /** Everything the handler emits, in order. */
  function Emitted(userMessage: Message, chunks: seq<string>, e: Ending, json: Message -> string): seq<Frame>
  {
    [Frame("user_message", json(userMessage))] + ChunkFrames(chunks) + [EndFrame(e, json)]
  }

  /** The text of a response: the user message, the chunks, and `done` or the reason why not. */
  function Response(userMessage: Message, chunks: seq<string>, e: Ending, json: Message -> string): (text: string)
  {
    PrintFrame(Frame("user_message", json(userMessage)))
    + PrintFrames(ChunkFrames(chunks))
    + match e
      case Interrupted => PrintFrame(Frame("error", PrintObject(Member("error", "AI generation interrupted"))))
      case NotSaved => PrintFrame(Frame("error", PrintObject(Member("error", "failed to persist assistant message"))))
      case Saved(m) => PrintFrame(Frame("done", json(m)))
  }

  lemma EmittedIsResponse(userMessage: Message, chunks: seq<string>, e: Ending, json: Message -> string)
    ensures PrintFrames(Emitted(userMessage, chunks, e, json)) == Response(userMessage, chunks, e, json)
  {
    hide PrintFrame, PrintFrames, PrintObject, ChunkFrames;
    var first := Frame("user_message", json(userMessage));
    PrintFramesSplits([first], ChunkFrames(chunks));
    PrintOneMore([first] + ChunkFrames(chunks), EndFrame(e, json));
    PrintOne(first);
  }

  lemma PrintOne(f: Frame)
    ensures PrintFrames([f]) == PrintFrame(f)
  {
    hide PrintFrame;
    assert [f][1..] == [];
    assert PrintFrame(f) + "" == PrintFrame(f);
  }

  class EventWriter {
    var wire: string

    constructor ()
      ensures wire == ""
    {
      wire := "";
    }

    method SSEvent(name: string, payload: string)
      modifies this
      ensures wire == old(wire) + PrintFrame(Frame(name, payload))
    {
      wire := wire + PrintFrame(Frame(name, payload));
    }
  }

  lemma NothingPrinted()
    ensures PrintFrames([]) == ""
  {
  }

  lemma PrintOneMore(frames: seq<Frame>, f: Frame)
    ensures PrintFrames(frames + [f]) == PrintFrames(frames) + PrintFrame(f)
  {
    PrintFramesSplits(frames, [f]);
    assert [f][1..] == [];
  }

  /** The handler after the session is prepared: emit, accumulate, then store the whole reply or say why not. */
  method StreamMessage(w: EventWriter, repo: ChatRepository, chatId: nat, userMessage: Message, chunks: seq<string>,
                       streamErr: bool, now: int, insertOk: bool, updateOk: bool, json: Message -> string)
    returns (ending: Ending)
    requires Valid(repo.View()) && Later(repo.View(), now)
    modifies w, repo
    ensures Valid(repo.View())
    ensures w.wire == old(w.wire) + PrintFrames(Emitted(userMessage, chunks, ending, json))
    ensures w.wire == old(w.wire) + Response(userMessage, chunks, ending, json)
    ensures ending.Interrupted? <==> streamErr
    ensures ending.Saved? <==> !streamErr && insertOk && updateOk && chatId in old(repo.chats)
    ensures ending.Saved? ==>
              && ending.message == NewMessage(old(repo.View()), chatId, Assistant, Concat(chunks), now)
              && repo.View() == Append(old(repo.View()), ending.message)
    ensures !ending.Saved? ==> repo.View() == old(repo.View())
  {
    hide PrintFrame, PrintObject, PrintFrames, Response;
    NothingPrinted();
    ghost var start := w.wire;
    ghost var first := [Frame("user_message", json(userMessage))];
    w.SSEvent("user_message", json(userMessage));
    PrintOneMore([], first[0]);
    assert [] + first == first && first + ChunkFrames(chunks)[..0] == first;
    assert w.wire == start + PrintFrames(first);
    var fullText := "";
    for i := 0 to |chunks|
      invariant fullText == Concat(chunks[..i])
      invariant w.wire == start + PrintFrames(first + ChunkFrames(chunks)[..i])
      invariant repo.View() == old(repo.View())
    {
      assert chunks[..i + 1][..i] == chunks[..i];
      fullText := fullText + chunks[i];
      w.SSEvent("chunk", PrintObject(Member("chunk", chunks[i])));
      PrintOneMore(first + ChunkFrames(chunks)[..i], ChunkFrame(chunks[i]));
      assert first + ChunkFrames(chunks)[..i + 1] == first + ChunkFrames(chunks)[..i] + [ChunkFrame(chunks[i])];
    }
    assert chunks[..|chunks|] == chunks && ChunkFrames(chunks)[..|chunks|] == ChunkFrames(chunks);
    if streamErr {
      ending := Interrupted;
      w.SSEvent("error", PrintObject(Member("error", INTERRUPTED)));
    } else {
      var aiMsg := repo.CreateMessage(chatId, Assistant, fullText, now, insertOk, updateOk);
      if aiMsg == None {
        ending := NotSaved;
        w.SSEvent("error", PrintObject(Member("error", NOT_SAVED)));
      } else {
        ending := Saved(aiMsg.value);
        w.SSEvent("done", json(aiMsg.value));
      }
    }
    PrintOneMore(first + ChunkFrames(chunks), EndFrame(ending, json));
    EmittedIsResponse(userMessage, chunks, ending, json);
  }

  // ---- End to end ----------------------------------------------------------------------------------

  lemma WordIsPlain(name: string)
    requires name != "" && forall c | c in name :: c == '_' || 'a' <= c <= 'z'
    ensures Plain(name)
  {
    assert name[0] in name && name[|name| - 1] in name;
    assert !JsSpace(name[0]) && !JsSpace(name[|name| - 1]);
  }

  lemma NamesArePlain()
    ensures Plain("user_message") && Plain("chunk") && Plain("error") && Plain("done")
  {
    hide Plain;
    WordIsPlain("user_message");
    WordIsPlain("chunk");
    WordIsPlain("error");
    WordIsPlain("done");
  }

  lemma JsonFrameIsClean(name: string, payload: string)
    requires Plain(name) && JsonText(payload)
    ensures Clean(Frame(name, payload))
  {
    assert '\n' !in payload && '\r' !in payload;
  }

  lemma PrintedObjectIsJson(m: Member)
    ensures JsonText(PrintObject(m))
  {
    PrintedIsPrintable(m);
  }

  lemma ObjectFrameIsClean(name: string, m: Member)
    requires Plain(name)
    ensures Clean(Frame(name, PrintObject(m)))
  {
    hide Clean, PrintObject;
    PrintedObjectIsJson(m);
    JsonFrameIsClean(name, PrintObject(m));
  }

  lemma EmittedIsClean(userMessage: Message, chunks: seq<string>, e: Ending, json: Message -> string)
    requires forall m :: JsonText(json(m))
    ensures forall f | f in Emitted(userMessage, chunks, e, json) :: Clean(f)
  {
    hide Clean, PrintObject, Plain;
    NamesArePlain();
    JsonFrameIsClean("user_message", json(userMessage));
    forall i | 0 <= i < |chunks|
      ensures Clean(ChunkFrame(chunks[i]))
    {
      ObjectFrameIsClean("chunk", Member("chunk", chunks[i]));
    }
    ObjectFrameIsClean("error", Member("error", INTERRUPTED));
    ObjectFrameIsClean("error", Member("error", NOT_SAVED));
    if e.Saved? {
      JsonFrameIsClean("done", json(e.message));
    }
  }

  lemma ChunkFragment(chunk: string)
    ensures Fragment(ChunkFrame(chunk)) == EscapeHtml(chunk)
  {
    hide EscapeHtml, PrintObject, ParseObject;
    PrintedObjectIsJson(Member("chunk", chunk));
    ParsePrintedObject(Member("chunk", chunk));
  }

  lemma ErrorFragment(text: string)
    requires text != ""
    ensures Fragment(ErrorFrame(text)) == ERROR_OPEN + EscapeHtml(text) + ERROR_CLOSE
  {
    hide EscapeHtml, PrintObject, ParseObject;
    PrintedObjectIsJson(Member("error", text));
    ParsePrintedObject(Member("error", text));
  }

  /** The bubble after the ending has been shown. */
  function EndHtml(e: Ending): string
  {
    match e
    case Interrupted => ERROR_OPEN + EscapeHtml(INTERRUPTED) + ERROR_CLOSE
    case NotSaved => ERROR_OPEN + EscapeHtml(NOT_SAVED) + ERROR_CLOSE
    case Saved(_) => ""
  }

  lemma EscapeHtmlEmpty()
    ensures EscapeHtml("") == ""
  {
    SixPassesAreOne("");
  }

  lemma SavedAddsNothing(e: Ending, html: string)
    ensures e.Saved? ==> html + EndHtml(e) == html
  {
  }

  lemma {:induction false} RenderChunks(chunks: seq<string>)
    ensures Render(ChunkFrames(chunks)) == EscapeHtml(Concat(chunks))
  {
    hide EscapeHtml, Fragment, PrintObject;
    if chunks == [] {
      EscapeHtmlEmpty();
    } else {
      var init, last := chunks[..|chunks| - 1], chunks[|chunks| - 1];
      assert ChunkFrames(chunks)[..|chunks| - 1] == ChunkFrames(init);
      RenderChunks(init);
      ChunkFragment(last);
      EscapeHtmlSplits(Concat(init), last);
    }
  }

  lemma RenderOne(f: Frame)
    ensures Render([f]) == Fragment(f)
  {
    assert [f][..0] == [];
  }

  lemma RenderUserMessage(payload: string)
    ensures Render([Frame("user_message", payload)]) == ""
  {
    RenderOne(Frame("user_message", payload));
  }

  lemma DoneFragment(payload: string)
    ensures Fragment(Frame("done", payload)) == ""
  {
  }

  lemma RenderEnd(e: Ending, json: Message -> string)
    ensures Render([EndFrame(e, json)]) == EndHtml(e)
  {
    hide EscapeHtml, Fragment, PrintObject;
    RenderOne(EndFrame(e, json));
    if e.Saved? {
      DoneFragment(json(e.message));
    }
    ErrorFragment(INTERRUPTED);
    ErrorFragment(NOT_SAVED);
  }

  lemma RenderEmitted(userMessage: Message, chunks: seq<string>, e: Ending, json: Message -> string)
    ensures Render(Emitted(userMessage, chunks, e, json)) == EscapeHtml(Concat(chunks)) + EndHtml(e)
  {
    hide EscapeHtml, Fragment, PrintObject, EndHtml, EndFrame;
    var first := [Frame("user_message", json(userMessage))];
    RenderSplits(first + ChunkFrames(chunks), [EndFrame(e, json)]);
    RenderSplits(first, ChunkFrames(chunks));
    RenderUserMessage(json(userMessage));
    RenderChunks(chunks);
    RenderEnd(e, json);
  }

  /** The bubble shows the escaped text of all chunks, and then the error if there is one. */
  lemma EndToEnd(userMessage: Message, chunks: seq<string>, e: Ending, json: Message -> string, parts: seq<string>)
    requires forall m :: JsonText(json(m))
    requires Concat(parts) == PrintFrames(Emitted(userMessage, chunks, e, json))
    ensures Render(InterpretAll(Whole(Concat(parts)).events)) == EscapeHtml(Concat(chunks)) + EndHtml(e)
    ensures Whole(Concat(parts)).buffer == ""
  {
    hide EscapeHtml, Fragment, PrintObject, EndHtml, EndFrame, Whole, Interpret, Emitted, Clean;
    EmittedIsClean(userMessage, chunks, e, json);
    ParsePrinted(Emitted(userMessage, chunks, e, json));
    RenderEmitted(userMessage, chunks, e, json);
  }

  /** `html` is the escaped text of some first chunks. */
  ghost predicate ShowsChunks(html: string, chunks: seq<string>)
  {
    exists k :: 0 <= k <= |chunks| && html == EscapeHtml(Concat(chunks[..k]))
  }

  /** A response up to some chunk. */
  lemma EmittedPrefix(userMessage: Message, chunks: seq<string>, e: Ending, json: Message -> string, n: nat)
    requires n <= |chunks|
    ensures Emitted(userMessage, chunks, e, json)[..n + 1]
            == [Frame("user_message", json(userMessage))] + ChunkFrames(chunks[..n])
  {
    hide PrintObject, EndFrame;
  }

  lemma RenderPrefix(userMessage: Message, chunks: seq<string>, e: Ending, json: Message -> string, n: nat)
    requires n <= |chunks| + 2
    ensures var shown := Render(Emitted(userMessage, chunks, e, json)[..n]);
            if n == |chunks| + 2 then shown == EscapeHtml(Concat(chunks)) + EndHtml(e) else ShowsChunks(shown, chunks)
  {
    hide EscapeHtml, Fragment, EndHtml, EndFrame, PrintObject, ChunkFrames, Render, Concat;
    var frames := Emitted(userMessage, chunks, e, json);
    if n == |chunks| + 2 {
      assert frames[..n] == frames;
      RenderEmitted(userMessage, chunks, e, json);
    } else if n == 0 {
      RenderChunks(chunks[..0]);
      assert ChunkFrames(chunks[..0]) == [] == frames[..0];
    } else {
      EmittedPrefix(userMessage, chunks, e, json, n - 1);
      RenderSplits([Frame("user_message", json(userMessage))], ChunkFrames(chunks[..n - 1]));
      RenderUserMessage(json(userMessage));
      RenderChunks(chunks[..n - 1]);
    }
  }

  /**
    What the bubble shows while only the start of a stream has arrived, and for good if the response ends there
    without an error: the escaped text of some first chunks; the ending shows only when nothing is missing.
   */
  lemma CutConnection(userMessage: Message, chunks: seq<string>, e: Ending, json: Message -> string,
                      received: string, lost: string)
    requires forall m :: JsonText(json(m))
    requires received + lost == PrintFrames(Emitted(userMessage, chunks, e, json))
    ensures var shown := Render(InterpretAll(Whole(received).events));
            if lost == "" then shown == EscapeHtml(Concat(chunks)) + EndHtml(e) else ShowsChunks(shown, chunks)
  {
    hide EscapeHtml, Fragment, PrintFrames, EndHtml, EndFrame, Whole, Interpret, Clean, Render;
    var frames := Emitted(userMessage, chunks, e, json);
    EmittedIsClean(userMessage, chunks, e, json);
    ParseTruncated(frames, received, lost);
    var n := |InterpretAll(Whole(received).events)|;
    assert InterpretAll(Whole(received).events) == frames[..n];
    assert n == |frames| <==> lost == "";
    RenderPrefix(userMessage, chunks, e, json, n);
  }

  /** A network brings some start of what is sent, cut anyhow; only an error or an early end keeps it from bringing all. */
  ghost predicate Delivers(network: string -> Delivery)
  {
    forall wire :: Concat(network(wire).parts) <= wire
  }

  /** What the page shows of a streamed reply, whatever the network does to it. */
  ghost predicate Shown(html: string, wire: string, d: Delivery, chunks: seq<string>, e: Ending)
  {
    match d.error
    case Some(message) => html == FailedHtml(message)
    case None =>
      if Concat(d.parts) == wire then html == EscapeHtml(Concat(chunks)) + EndHtml(e) else ShowsChunks(html, chunks)
  }

  /** Handler, network and browser together: a reply that arrives whole is shown as the database holds it. */
  method StreamedReply(w: EventWriter, repo: ChatRepository, chatId: nat, userMessage: Message, chunks: seq<string>,
                       streamErr: bool, now: int, insertOk: bool, updateOk: bool, json: Message -> string,
                       network: string -> Delivery, bubble: AiBubble)
    returns (ending: Ending)
    requires Valid(repo.View()) && Later(repo.View(), now)
    requires w.wire == "" && forall m :: JsonText(json(m))
    requires Delivers(network)
    modifies w, repo, bubble
    ensures Valid(repo.View())
    ensures ending.Interrupted? <==> streamErr
    ensures ending.Saved? <==> !streamErr && insertOk && updateOk && chatId in old(repo.chats)
    ensures ending.Saved? ==>
              && ending.message == NewMessage(old(repo.View()), chatId, Assistant, Concat(chunks), now)
              && repo.View() == Append(old(repo.View()), ending.message)
              && repo.messages == old(repo.messages) + [ending.message]
    ensures !ending.Saved? ==> repo.View() == old(repo.View())
    ensures w.wire == PrintFrames(Emitted(userMessage, chunks, ending, json))
    ensures Shown(bubble.innerHTML, w.wire, network(w.wire), chunks, ending)
    ensures ending.Saved? && network(w.wire).error.None? && Concat(network(w.wire).parts) == w.wire ==>
              bubble.innerHTML == EscapeHtml(ending.message.content)
  {
    hide EscapeHtml, Fragment, PrintFrames, EndHtml, EndFrame, Whole, InterpretAll, Emitted, Render, ShowsChunks, Response;
    ending := StreamMessage(w, repo, chatId, userMessage, chunks, streamErr, now, insertOk, updateOk, json);
    assert "" + PrintFrames(Emitted(userMessage, chunks, ending, json)) == w.wire;
    var d := network(w.wire);
    var received := Concat(d.parts);
    assert received <= w.wire;
    CutConnection(userMessage, chunks, ending, json, received, w.wire[|received|..]);
    ReceiveStream(d, bubble);
    SavedAddsNothing(ending, EscapeHtml(Concat(chunks)));
  }
}
