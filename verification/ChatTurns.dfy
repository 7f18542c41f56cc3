/**
  One sending after the other: each is a run of the interleaved machine, and a chat's prompts spell out
  all turns so far.
 */
module ChatTurns {
  import opened ChatServices
  import opened ChatSessions
  import opened ChatStore
  import opened Prompts
  import opened Text
  import opened Wrappers

  // ---- A sending is a run --------------------------------------------------------------------------

  lemma {:induction false} StepsSplit(y: Server, a: seq<Action>, b: seq<Action>)
    ensures Steps(y, a + b) == Steps(Steps(y, a), b)
  {
    if b == [] {
      assert a + b == a;
    } else {
      var init := b[..|b| - 1];
      assert (a + b)[..|a + b| - 1] == a + init;
      StepsSplit(y, a, init);
    }
  }

  lemma OneMoreStep(y: Server, actions: seq<Action>, a: Action)
    ensures Steps(y, actions + [a]) == Step(Steps(y, actions), a)
  {
    assert (actions + [a])[..|actions|] == actions;
  }

  function Idles(n: nat): (actions: seq<Action>)
    ensures |actions| == n && forall a | a in actions :: a == Idle
  {
    seq(n, _ => Idle)
  }

  lemma {:induction false} TimePasses(y: Server, n: nat)
    ensures Steps(y, Idles(n)) == y.(now := y.now + n)
  {
    if n == 0 {
    } else {
      assert Idles(n)[..n - 1] == Idles(n - 1);
      TimePasses(y, n - 1);
    }
  }

  /** `prepareSessionContext` as steps; time passes before the user message is stored. */
  function PreparingSteps(id: nat, q: Sending, c: Calls, keyFound: bool, streaming: bool, wait: nat): seq<Action>
  {
    [Begin(id, q.userId, q.chatId, q.content, streaming, WellFormed(q))] + [ReadHistory(id, c.readOk)]
    + [GetKey(id, c.keyOk && keyFound)] + Idles(wait)
    + [SaveUser(id, c.insertOk && c.updateOk)] + [BuildPrompt(id, SystemPrompt(c))]
  }

  function QuestionOf(y: Server, q: Sending, c: Calls): Message
  {
    NewMessage(y.store, q.chatId, User, q.content, c.askedAt)
  }

  /** What the preparing steps lead to. */
  predicate PreparedFrom(y: Server, t: Server, id: nat, q: Sending, c: Calls, keyFound: bool, streaming: bool)
  {
    && t.now == c.askedAt + 2 && id in t.sessions
    && var s := t.sessions[id];
       && Fresh(s, q, streaming)
       && if MayStore(y.store, q, c, keyFound) then
            && t.store == Append(y.store, QuestionOf(y, q, c)) && s.question == Some(QuestionOf(y, q, c))
            && s.stage == Calling
            && s.prompt == Build(SystemPrompt(c), ConversationOf(y.store, q.chatId, q.userId).value.history, q.content)
          else t.store == y.store && s.stage == Refused
  }

  /** A session of this sending that has received nothing yet. */
  predicate Fresh(s: Session, q: Sending, streaming: bool)
  {
    (s.chatId, s.content, s.streaming, s.chunks, s.answer) == (q.chatId, q.content, streaming, [], None)
  }

  lemma Reads(y: Server, id: nat, q: Sending, c: Calls, keyOk: bool, streaming: bool)
    requires id !in y.sessions
    ensures var t := Step(Step(Step(y, Begin(id, q.userId, q.chatId, q.content, streaming, WellFormed(q))),
                               ReadHistory(id, c.readOk)), GetKey(id, keyOk));
            && t.now == y.now + 3 && t.store == y.store && id in t.sessions && Fresh(t.sessions[id], q, streaming)
            && var found := ConversationOf(y.store, q.chatId, q.userId);
               if WellFormed(q) && c.readOk && found.Some? && keyOk
               then t.sessions[id].stage == HasKey && t.sessions[id].history == found.value.history
               else t.sessions[id].stage == Refused
  {
    hide Build, Log, WellFormed;
  }

  lemma Stores(y: Server, id: nat, q: Sending, streaming: bool, dbOk: bool, systemPrompt: string)
    requires id in y.sessions && Fresh(y.sessions[id], q, streaming)
    requires y.sessions[id].stage == HasKey || y.sessions[id].stage == Refused
    ensures var t := Step(Step(y, SaveUser(id, dbOk)), BuildPrompt(id, systemPrompt));
            && t.now == y.now + 2 && id in t.sessions && Fresh(t.sessions[id], q, streaming)
            && if y.sessions[id].stage == HasKey && dbOk then
                 var m := NewMessage(y.store, q.chatId, User, q.content, y.now);
                 && t.store == Append(y.store, m) && t.sessions[id].question == Some(m)
                 && t.sessions[id].stage == Calling
                 && t.sessions[id].prompt == Build(systemPrompt, y.sessions[id].history, q.content)
               else t.store == y.store && t.sessions[id].stage == Refused
  {
    hide Build, Log, Append, Concat;
  }

  lemma Prepares(y: Server, id: nat, q: Sending, c: Calls, keyFound: bool, streaming: bool, wait: nat)
    requires id !in y.sessions && c.askedAt == y.now + 3 + wait
    ensures PreparedFrom(y, Steps(y, PreparingSteps(id, q, c, keyFound, streaming, wait)), id, q, c, keyFound, streaming)
  {
    hide Steps, Step, Build, Log, WellFormed, SystemPrompt, Append, Idles;
    var a1 := [Begin(id, q.userId, q.chatId, q.content, streaming, WellFormed(q))];
    var a2 := a1 + [ReadHistory(id, c.readOk)];
    var a3 := a2 + [GetKey(id, c.keyOk && keyFound)];
    var a4 := a3 + Idles(wait);
    var a5 := a4 + [SaveUser(id, c.insertOk && c.updateOk)];
    NoSteps(y);
    OneMoreStep(y, [], a1[0]);
    assert [] + a1 == a1;
    OneMoreStep(y, a1, ReadHistory(id, c.readOk));
    OneMoreStep(y, a2, GetKey(id, c.keyOk && keyFound));
    Reads(y, id, q, c, c.keyOk && keyFound, streaming);
    StepsSplit(y, a3, Idles(wait));
    TimePasses(Steps(y, a3), wait);
    OneMoreStep(y, a4, SaveUser(id, c.insertOk && c.updateOk));
    OneMoreStep(y, a5, BuildPrompt(id, SystemPrompt(c)));
    Stores(Steps(y, a4), id, q, streaming, c.insertOk && c.updateOk, SystemPrompt(c));
  }

  lemma NoSteps(y: Server)
    ensures Steps(y, []) == y
  {
  }

  /** The store and the session after a sending: what was stored, what was asked, how it ended and why. */
  ghost predicate EndsAs(y: Server, t: Server, id: nat, q: Sending, c: Calls, keyFound: bool, reply: Option<string>,
                   noReply: Cause, last: LastCall)
  {
    var asked, saved := MayStore(y.store, q, c, keyFound), last.insertOk && last.updateOk;
    && t.store == AfterSend(y.store, q, asked, c.askedAt, reply, saved, last.answeredAt)
    && id in t.sessions
    && var s := t.sessions[id];
       if !asked then s.stage == Refused
       else
         && s.question == Some(QuestionOf(y, q, c))
         && s.prompt == Build(SystemPrompt(c), ConversationOf(y.store, q.chatId, q.userId).value.history, q.content)
         && (forall key, ask |
               AskOf(q, ConversationOf(y.store, q.chatId, q.userId).value.history, key, c) == Some(ask) ::
                 ask.messages == s.prompt)
         && if reply.Some? && saved then
              var before := Append(y.store, QuestionOf(y, q, c));
              s.stage == Done && s.answer == Some(NewMessage(before, q.chatId, Assistant, reply.value, last.answeredAt))
            else s.stage == Failed(if reply.Some? then NotStored else noReply) && s.answer == None
  }

  /** The reply is stored, or not, whenever the last step comes. */
  lemma Closes(y: Server, id: nat, dbOk: bool)
    requires id in y.sessions && (y.sessions[id].stage.Replied? || Ended(y.sessions[id]))
    ensures var t, s := Step(y, SaveReply(id, dbOk)), y.sessions[id];
            && id in t.sessions
            && if s.stage.Replied? && dbOk then
                 var m := NewMessage(y.store, s.chatId, Assistant, Concat(s.chunks), y.now);
                 t.store == Append(y.store, m) && t.sessions[id] == s.(stage := Done, answer := Some(m))
               else
                 && t.store == y.store
                 && t.sessions[id] == if s.stage.Replied? then s.(stage := Failed(NotStored)) else s
  {
    hide Build, Log, Concat, Append;
  }

  function SendSteps(id: nat, q: Sending, c: Calls, keyFound: bool, reply: Option<string>, last: LastCall,
                     wait: nat, wait2: nat): seq<Action>
  {
    PreparingSteps(id, q, c, keyFound, false, wait) + [Generate(id, reply)] + Idles(wait2)
    + [SaveReply(id, last.insertOk && last.updateOk)]
  }

  lemma Generates(y: Server, id: nat, reply: Option<string>)
    requires id in y.sessions && !y.sessions[id].streaming && y.sessions[id].chunks == []
    requires y.sessions[id].stage == Calling || y.sessions[id].stage == Refused
    ensures var t, s := Step(y, Generate(id, reply)), y.sessions[id];
            && t.now == y.now + 1 && t.store == y.store && id in t.sessions
            && t.sessions[id] == if s.stage == Refused then s
                                 else if reply.None? then s.(stage := Failed(NoReply))
                                 else s.(stage := Replied, chunks := [reply.value])
  {
    hide Build, Log, Concat, Append;
  }

  /** `SendMessage` ends as its steps do when no other session takes a step in between, whenever its calls come. */
  lemma SendIsARun(y: Server, id: nat, q: Sending, c: Calls, keyFound: bool, reply: Option<string>, last: LastCall)
    requires id !in y.sessions && y.now + 3 <= c.askedAt && c.askedAt + 3 <= last.answeredAt
    ensures var actions := SendSteps(id, q, c, keyFound, reply, last, c.askedAt - y.now - 3, last.answeredAt - c.askedAt - 3);
            EndsAs(y, Steps(y, actions), id, q, c, keyFound, reply, NoReply, last)
  {
    hide Steps, Step, Build, Log, PreparingSteps, MayStore, Append, Concat, Idles, QuestionOf, SystemPrompt, AskOf;
    var wait, wait2 := c.askedAt - y.now - 3, last.answeredAt - c.askedAt - 3;
    Prepares(y, id, q, c, keyFound, false, wait);
    var a0 := PreparingSteps(id, q, c, keyFound, false, wait);
    var a1 := a0 + [Generate(id, reply)];
    OneMoreStep(y, a0, Generate(id, reply));
    Generates(Steps(y, a0), id, reply);
    StepsSplit(y, a1, Idles(wait2));
    TimePasses(Steps(y, a1), wait2);
    OneMoreStep(y, a1 + Idles(wait2), SaveReply(id, last.insertOk && last.updateOk));
    Closes(Steps(y, a1 + Idles(wait2)), id, last.insertOk && last.updateOk);
    QuestionIs(y, q, c);
    if MayStore(y.store, q, c, keyFound) {
      ConversationFound(y.store, q, c, keyFound);
      AskIsPrompt(q, ConversationOf(y.store, q.chatId, q.userId).value.history, c);
    }
    if reply.Some? {
      ConcatOne(reply.value);
    }
  }

  /** Whatever the key, what the service asks is the prompt. */
  lemma AskIsPrompt(q: Sending, history: seq<Message>, c: Calls)
    ensures forall key, ask | AskOf(q, history, key, c) == Some(ask) ::
              ask.messages == Build(SystemPrompt(c), history, q.content)
  {
    hide Build;
  }

  lemma ConversationFound(s: Store, q: Sending, c: Calls, keyFound: bool)
    requires MayStore(s, q, c, keyFound)
    ensures ConversationOf(s, q.chatId, q.userId).Some?
  {
  }

  lemma QuestionIs(y: Server, q: Sending, c: Calls)
    ensures QuestionOf(y, q, c) == NewMessage(y.store, q.chatId, User, q.content, c.askedAt)
  {
  }

  lemma ConcatOne(text: string)
    ensures Concat([text]) == text
  {
    assert [text][..0] == [];
  }

  function ChunkSteps(id: nat, chunks: seq<string>): (actions: seq<Action>)
    ensures |actions| == |chunks|
    ensures forall i | 0 <= i < |chunks| :: actions[i] == Chunk(id, chunks[i])
  {
    seq(|chunks|, i requires 0 <= i < |chunks| => Chunk(id, chunks[i]))
  }

  /** The chunks of a stream, or none when no stream could be opened. */
  function ChunksOf(stream: Option<TextStream>): seq<string>
  {
    if stream.Some? then stream.value.chunks else []
  }

  /** `StreamMessage`, the handler's loop and `OnComplete` as steps. */
  function StreamSteps(id: nat, q: Sending, c: Calls, keyFound: bool, stream: Option<TextStream>, last: LastCall,
                       wait: nat, wait2: nat): seq<Action>
  {
    PreparingSteps(id, q, c, keyFound, true, wait) + [OpenStream(id, stream.Some?)] + ChunkSteps(id, ChunksOf(stream))
    + [EndStream(id, stream.Some? && stream.value.interrupted)] + Idles(wait2)
    + [SaveReply(id, last.insertOk && last.updateOk)]
  }

  lemma ChunkArrives(y: Server, id: nat, text: string)
    requires id in y.sessions
    requires y.sessions[id].stage.Streaming? || Ended(y.sessions[id])
    ensures var t, s := Step(y, Chunk(id, text)), y.sessions[id];
            && t.now == y.now + 1 && t.store == y.store && id in t.sessions
            && t.sessions[id] == if s.stage.Streaming? then s.(chunks := s.chunks + [text]) else s
  {
    hide Build, Log, Concat, Append;
  }

  /** Chunks only ever grow the text of a session that streams. */
  lemma {:induction false} ChunksArrive(y: Server, id: nat, chunks: seq<string>)
    requires id in y.sessions && y.sessions[id].chunks == []
    requires y.sessions[id].stage.Streaming? || Ended(y.sessions[id])
    ensures var t, s := Steps(y, ChunkSteps(id, chunks)), y.sessions[id];
            && t.now == y.now + |chunks| && t.store == y.store && id in t.sessions
            && t.sessions[id] == if s.stage.Streaming? then s.(chunks := chunks) else s
  {
    hide Step;
    if chunks == [] {
    } else {
      var init := chunks[..|chunks| - 1];
      assert ChunkSteps(id, chunks)[..|chunks| - 1] == ChunkSteps(id, init);
      ChunksArrive(y, id, init);
      ChunkArrives(Steps(y, ChunkSteps(id, init)), id, chunks[|chunks| - 1]);
    }
  }

  lemma Opens(y: Server, id: nat, ok: bool)
    requires id in y.sessions && y.sessions[id].streaming
    requires y.sessions[id].stage == Calling || y.sessions[id].stage == Refused
    ensures var t, s := Step(y, OpenStream(id, ok)), y.sessions[id];
            && t.now == y.now + 1 && t.store == y.store && id in t.sessions
            && t.sessions[id] == if s.stage == Refused then s else s.(stage := if ok then Streaming else Failed(NoReply))
  {
    hide Build, Log, Concat, Append;
  }

  lemma Ends(y: Server, id: nat, interrupted: bool)
    requires id in y.sessions && (y.sessions[id].stage.Streaming? || Ended(y.sessions[id]))
    ensures var t, s := Step(y, EndStream(id, interrupted)), y.sessions[id];
            && t.now == y.now + 1 && t.store == y.store && id in t.sessions
            && t.sessions[id] == if s.stage.Streaming? then s.(stage := if interrupted then Failed(BrokenOff) else Replied) else s
  {
    hide Build, Log, Concat, Append;
  }

  /** The same for a streamed sending, with any number of chunks and any ending. */
  lemma StreamIsARun(y: Server, id: nat, q: Sending, c: Calls, keyFound: bool, stream: Option<TextStream>, last: LastCall)
    requires id !in y.sessions && y.now + 3 <= c.askedAt && c.askedAt + 4 + |ChunksOf(stream)| <= last.answeredAt
    ensures var reply := if stream.Some? && !stream.value.interrupted then Some(Concat(stream.value.chunks)) else None;
            var actions := StreamSteps(id, q, c, keyFound, stream, last, c.askedAt - y.now - 3,
                                       last.answeredAt - c.askedAt - 4 - |ChunksOf(stream)|);
            EndsAs(y, Steps(y, actions), id, q, c, keyFound, reply, if stream.Some? then BrokenOff else NoReply, last)
  {
    hide Steps, Step, Build, Log, PreparingSteps, MayStore, Concat, Append, ChunkSteps, Idles, QuestionOf, SystemPrompt, AskOf;
    var chunks := ChunksOf(stream);
    var wait, wait2 := c.askedAt - y.now - 3, last.answeredAt - c.askedAt - 4 - |chunks|;
    Prepares(y, id, q, c, keyFound, true, wait);
    var interrupted, dbOk := stream.Some? && stream.value.interrupted, last.insertOk && last.updateOk;
    var a0 := PreparingSteps(id, q, c, keyFound, true, wait);
    var a1 := a0 + [OpenStream(id, stream.Some?)];
    var a2 := a1 + ChunkSteps(id, chunks);
    var a3 := a2 + [EndStream(id, interrupted)];
    OneMoreStep(y, a0, OpenStream(id, stream.Some?));
    Opens(Steps(y, a0), id, stream.Some?);
    StepsSplit(y, a1, ChunkSteps(id, chunks));
    ChunksArrive(Steps(y, a1), id, chunks);
    OneMoreStep(y, a2, EndStream(id, interrupted));
    Ends(Steps(y, a2), id, interrupted);
    StepsSplit(y, a3, Idles(wait2));
    TimePasses(Steps(y, a3), wait2);
    OneMoreStep(y, a3 + Idles(wait2), SaveReply(id, dbOk));
    Closes(Steps(y, a3 + Idles(wait2)), id, dbOk);
    QuestionIs(y, q, c);
    if MayStore(y.store, q, c, keyFound) {
      ConversationFound(y.store, q, c, keyFound);
      AskIsPrompt(q, ConversationOf(y.store, q.chatId, q.userId).value.history, c);
    }
  }

  // ---- Prompts over many turns ---------------------------------------------------------------------

  /** A successful sending: what was said, what was replied, and when each was stored. */
  datatype Turn = Turn(content: string, reply: string, askedAt: int, answeredAt: int)

  /** The store after successful sendings to one chat, one after the other. */
  function AfterTurns(s: Store, q: Sending, turns: seq<Turn>): Store
  {
    if turns == [] then s
    else
      var last := turns[|turns| - 1];
      AfterSend(AfterTurns(s, q, turns[..|turns| - 1]), q.(content := last.content), true, last.askedAt,
                Some(last.reply), true, last.answeredAt)
  }

  function Spoken(turns: seq<Turn>): (said: seq<Said>)
  {
    if turns == [] then []
    else
      var last := turns[|turns| - 1];
      Spoken(turns[..|turns| - 1]) + [Said(User, last.content)] + [Said(Assistant, last.reply)]
  }

  lemma TurnGrowsLog(s: Store, q: Sending, turn: Turn)
    requires q.chatId in s.chats
    ensures var one := NewMessage(s, q.chatId, User, turn.content, turn.askedAt);
            var two := NewMessage(Append(s, one), q.chatId, Assistant, turn.reply, turn.answeredAt);
            var t := AfterSend(s, q.(content := turn.content), true, turn.askedAt, Some(turn.reply), true, turn.answeredAt);
            && q.chatId in t.chats && t.chats[q.chatId].userId == s.chats[q.chatId].userId
            && Log(t.messages, q.chatId) == Log(s.messages, q.chatId) + [one] + [two]
  {
    hide Log;
    var one := NewMessage(s, q.chatId, User, turn.content, turn.askedAt);
    var two := NewMessage(Append(s, one), q.chatId, Assistant, turn.reply, turn.answeredAt);
    LogAppend(s.messages, one, q.chatId);
    LogAppend(s.messages + [one], two, q.chatId);
  }

  lemma {:induction false} TurnsGrowDialogue(s: Store, q: Sending, turns: seq<Turn>)
    requires q.chatId in s.chats
    ensures var t := AfterTurns(s, q, turns);
            && q.chatId in t.chats && t.chats[q.chatId].userId == s.chats[q.chatId].userId
            && Dialogue(Repeat(Log(t.messages, q.chatId)))
               == Dialogue(Repeat(Log(s.messages, q.chatId))) + Spoken(turns)
  {
    hide Log, Dialogue, Repeat, AfterSend;
    if turns == [] {
    } else {
      var init, last := turns[..|turns| - 1], turns[|turns| - 1];
      TurnsGrowDialogue(s, q, init);
      var before := AfterTurns(s, q, init);
      TurnGrowsLog(before, q, last);
      var one := NewMessage(before, q.chatId, User, last.content, last.askedAt);
      var two := NewMessage(Append(before, one), q.chatId, Assistant, last.reply, last.answeredAt);
      DialogueOfTurn(Log(before.messages, q.chatId), one, two);
    }
  }

  /** The next prompt of a chat says what was said before the turns, then every turn in order, then the new content. */
  lemma {:induction false} PromptAfterTurns(s: Store, q: Sending, turns: seq<Turn>, systemPrompt: string)
    requires ConversationOf(s, q.chatId, q.userId).Some?
    ensures var next := ConversationOf(AfterTurns(s, q, turns), q.chatId, q.userId);
            && next.Some?
            && Dialogue(Build(systemPrompt, next.value.history, q.content))
               == Dialogue(Repeat(Log(s.messages, q.chatId))) + Spoken(turns) + Optional(User, q.content)
  {
    hide Log, Dialogue, Repeat, AfterTurns, Build, Optional;
    TurnsGrowDialogue(s, q, turns);
    DialogueOfPrompt(systemPrompt, Log(AfterTurns(s, q, turns).messages, q.chatId), q.content);
  }
}
