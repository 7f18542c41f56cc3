/**
  Sessions that send a message and wait for a reply, all at once, over one store. Each repository and
  provider call is a step; steps of different sessions mix in any order, and a session may stop anywhere.
 */
module ChatSessions {
  import opened ChatStore
  import opened Prompts
  import opened Text
  import opened Wrappers

  /** Why a session that has asked stored no reply. */
  datatype Cause =
    | NoReply      // the provider gave no reply and opened no stream
    | BrokenOff    // the stream ended in an error
    | NotStored    // the reply could not be stored

  datatype Stage =
    | Started      // request accepted
    | HasHistory   // chat found, history read
    | HasKey       // API key decrypted
    | SavedUser    // user message stored
    | Calling      // prompt built, provider called
    | Streaming    // chunks arriving
    | Replied      // whole reply received
    | Done         // reply stored
    | Refused      // ended before the user message was stored
    | Failed(cause: Cause)   // ended after it was stored, without a stored reply

  /** `readAt` is the number of rows when the history was read. */
  datatype Session = Session(
    userId: string, chatId: nat, content: string, streaming: bool, stage: Stage,
    readAt: nat, history: seq<Message>, question: Option<Message>, systemPrompt: string, prompt: seq<Said>,
    chunks: seq<string>, answer: Option<Message>)

  /** The store, the sessions, and which session stored which message. */
  datatype Server = Server(now: int, store: Store, sessions: map<nat, Session>, author: map<nat, nat>)

  /** `Idle` lets time pass. */
  datatype Action =
    | Idle
    | NewChat(userId: string, title: string, dbOk: bool)
    | Begin(id: nat, userId: string, chatId: nat, content: string, streaming: bool, valid: bool)
    | ReadHistory(id: nat, dbOk: bool)
    | GetKey(id: nat, ok: bool)
    | SaveUser(id: nat, dbOk: bool)
    | BuildPrompt(id: nat, systemPrompt: string)
    | Generate(id: nat, reply: Option<string>)
    | OpenStream(id: nat, ok: bool)
    | Chunk(id: nat, text: string)
    | EndStream(id: nat, interrupted: bool)
    | SaveReply(id: nat, dbOk: bool)

  predicate Ended(s: Session)
  {
    s.stage.Refused? || s.stage.Failed? || s.stage.Done?
  }

  predicate OfSession(a: Action)
  {
    !a.Idle? && !a.NewChat? && !a.Begin?
  }

  // ---- Steps ---------------------------------------------------------------------------------------

  function Tick(y: Server): Server
  {
    y.(now := y.now + 1)
  }

  function Move(y: Server, id: nat, s: Session): Server
  {
    Tick(y).(sessions := y.sessions[id := s])
  }

  /** `CreateMessage` and the session that called it. */
  function Save(y: Server, id: nat, s: Session, m: Message): Server
  {
    Move(y, id, s).(store := Append(y.store, m), author := y.author[m.id := id])
  }

  function SessionStep(y: Server, a: Action, s: Session): Server
    requires OfSession(a)
  {
    match (a, s.stage)
    case (ReadHistory(id, dbOk), Started) =>
      (match ConversationOf(y.store, s.chatId, s.userId)
       case Some(c) => 
         if dbOk then Move(y, id, s.(stage := HasHistory, readAt := |y.store.messages|, history := c.history))
         else Move(y, id, s.(stage := Refused))
       case None => Move(y, id, s.(stage := Refused)))
    case (GetKey(id, ok), HasHistory) => Move(y, id, s.(stage := if ok then HasKey else Refused))
    case (SaveUser(id, dbOk), HasKey) =>
      var m := NewMessage(y.store, s.chatId, User, s.content, y.now);
      if dbOk then Save(y, id, s.(stage := SavedUser, question := Some(m)), m) else Move(y, id, s.(stage := Refused))
    case (BuildPrompt(id, systemPrompt), SavedUser) =>
      Move(y, id, s.(stage := Calling, systemPrompt := systemPrompt, prompt := Build(systemPrompt, s.history, s.content)))
    case (Generate(id, reply), Calling) =>
      if s.streaming then Tick(y)
      else (match reply
            case Some(text) => Move(y, id, s.(stage := Replied, chunks := [text]))
            case None => Move(y, id, s.(stage := Failed(NoReply))))
    case (OpenStream(id, ok), Calling) =>
      if s.streaming then Move(y, id, s.(stage := if ok then Streaming else Failed(NoReply))) else Tick(y)
    case (Chunk(id, text), Streaming) => Move(y, id, s.(chunks := s.chunks + [text]))
    case (EndStream(id, interrupted), Streaming) => Move(y, id, s.(stage := if interrupted then Failed(BrokenOff) else Replied))
    case (SaveReply(id, dbOk), Replied) =>
      var m := NewMessage(y.store, s.chatId, Assistant, Concat(s.chunks), y.now);
      if dbOk then Save(y, id, s.(stage := Done, answer := Some(m)), m) else Move(y, id, s.(stage := Failed(NotStored)))
    case _ => Tick(y)
  }

  function Step(y: Server, a: Action): Server
  {
    match a
    case Idle => Tick(y)
    case NewChat(userId, title, dbOk) => if dbOk then Tick(y).(store := WithChat(y.store, userId, title, y.now)) else Tick(y)
    case Begin(id, userId, chatId, content, streaming, valid) =>
      if id in y.sessions then Tick(y)
      else Move(y, id, Session(userId, chatId, content, streaming, if valid then Started else Refused,
                               0, [], None, "", [], [], None))
    case _ => if a.id in y.sessions then SessionStep(y, a, y.sessions[a.id]) else Tick(y)
  }

  const INITIAL: Server := Server(0, Store(map[], 0, []), map[], map[])

  function Steps(y: Server, actions: seq<Action>): (t: Server)
  {
    if actions == [] then y else Step(Steps(y, actions[..|actions| - 1]), actions[|actions| - 1])
  }

  function Run(actions: seq<Action>): (y: Server)
  {
    Steps(INITIAL, actions)
  }

  // ---- What every interleaving keeps ---------------------------------------------------------------

  /** The session has passed the ownership check. */
  predicate Admitted(s: Session)
  {
    !s.stage.Started? && !s.stage.Refused?
  }

  /** The session has stored its user message. */
  predicate Asked(s: Session)
  {
    Admitted(s) && !s.stage.HasHistory? && !s.stage.HasKey?
  }

  predicate Prompted(s: Session)
  {
    Asked(s) && !s.stage.SavedUser?
  }

  predicate SessionOk(store: Store, s: Session)
  {
    && (Admitted(s) ==>
          && s.chatId in store.chats && store.chats[s.chatId].userId == s.userId
          && s.readAt <= |store.messages| && s.history == Log(store.messages[..s.readAt], s.chatId))
    && (s.question.Some? <==> Asked(s))
    && (s.question.Some? ==>
          && s.question.value.id < |store.messages| && store.messages[s.question.value.id] == s.question.value
          && s.question.value.role == User && s.question.value.content == s.content && s.question.value.chatId == s.chatId
          && s.readAt <= s.question.value.id)
    && (s.answer.Some? <==> s.stage.Done?)
    && (s.answer.Some? ==>
          && s.answer.value.id < |store.messages| && store.messages[s.answer.value.id] == s.answer.value
          && s.answer.value.role == Assistant && s.answer.value.content == Concat(s.chunks)
          && s.answer.value.chatId == s.chatId && s.question.value.id < s.answer.value.id)
    && (Prompted(s) ==> s.prompt == Build(s.systemPrompt, s.history, s.content))
  }

  /** Each message is the question or the answer of the session that stored it. */
  predicate MessageOk(y: Server, m: Message)
  {
    && m.id in y.author && y.author[m.id] in y.sessions
    && var s := y.sessions[y.author[m.id]]; s.question == Some(m) || s.answer == Some(m)
  }

  ghost predicate Inv(y: Server)
  {
    && Valid(y.store) && Later(y.store, y.now)
    && (forall id | id in y.sessions :: SessionOk(y.store, y.sessions[id]))
    && (forall m | m in y.store.messages :: MessageOk(y, m))
  }

  /** A step that stores nothing: only one session moves, keeping its messages. */
  lemma MoveKeepsInv(y: Server, id: nat, s: Session)
    requires Inv(y) && SessionOk(y.store, s)
    requires id in y.sessions ==> s.question == y.sessions[id].question && s.answer == y.sessions[id].answer
    ensures Inv(Move(y, id, s))
  {
    hide SessionOk, Valid;
    var t := Move(y, id, s);
    forall m | m in t.store.messages
      ensures MessageOk(t, m)
    {
      assert MessageOk(y, m);
    }
  }

  lemma TickKeepsInv(y: Server)
    requires Inv(y)
    ensures Inv(Tick(y))
  {
    hide SessionOk, Valid;
    forall m | m in y.store.messages
      ensures MessageOk(Tick(y), m)
    {
      assert MessageOk(y, m);
    }
  }

  /** What a session knows survives a new message or chat. */
  lemma SessionStaysOk(store: Store, s: Session, m: Message)
    requires SessionOk(store, s) && m.chatId in store.chats && m.id == |store.messages|
    ensures SessionOk(Append(store, m), s)
  {
    hide Build, Concat;
    if Admitted(s) {
      assert (store.messages + [m])[..s.readAt] == store.messages[..s.readAt];
    }
  }

  /** A step that stores one message of the session. */
  lemma SaveKeepsInv(y: Server, id: nat, s: Session, m: Message)
    requires Inv(y) && id in y.sessions && m.chatId in y.store.chats
    requires m == NewMessage(y.store, m.chatId, m.role, m.content, y.now)
    requires SessionOk(Append(y.store, m), s)
    requires s.question == Some(m) || s.answer == Some(m)
    requires s.question == y.sessions[id].question || y.sessions[id].question.None?
    requires s.answer == y.sessions[id].answer || y.sessions[id].answer.None?
    ensures Inv(Save(y, id, s, m))
  {
    hide SessionOk;
    var t := Save(y, id, s, m);
    AppendKeepsValid(y.store, m.chatId, m.role, m.content, y.now);
    forall i | i in t.sessions && i != id
      ensures SessionOk(t.store, t.sessions[i])
    {
      SessionStaysOk(y.store, y.sessions[i], m);
    }
    forall k | k in t.store.messages
      ensures MessageOk(t, k)
    {
      if k != m {
        assert k in y.store.messages && MessageOk(y, k);
        var i :| 0 <= i < |y.store.messages| && y.store.messages[i] == k;
        assert k.id != m.id;
      }
    }
  }

  lemma SaveUserKeepsInv(y: Server, id: nat, s: Session)
    requires Inv(y) && id in y.sessions && y.sessions[id] == s && s.stage.HasKey?
    ensures Inv(SessionStep(y, SaveUser(id, true), s))
  {
    hide Build, Concat;
    var m := NewMessage(y.store, s.chatId, User, s.content, y.now);
    var s' := s.(stage := SavedUser, question := Some(m));
    assert SessionOk(y.store, s);
    SessionStaysOk(y.store, s, m);
    SaveKeepsInv(y, id, s', m);
  }

  lemma SaveReplyKeepsInv(y: Server, id: nat, s: Session)
    requires Inv(y) && id in y.sessions && y.sessions[id] == s && s.stage.Replied?
    ensures Inv(SessionStep(y, SaveReply(id, true), s))
  {
    hide Build, Concat, Log, Valid, Later, Inv;
    SessionIsOk(y, id);
    var m := NewMessage(y.store, s.chatId, Assistant, Concat(s.chunks), y.now);
    var s' := s.(stage := Done, answer := Some(m));
    SessionStaysOk(y.store, s, m);
    SaveKeepsInv(y, id, s', m);
  }

  lemma ReadHistoryKeepsInv(y: Server, id: nat, s: Session, dbOk: bool)
    requires Inv(y) && id in y.sessions && y.sessions[id] == s && s.stage.Started?
    ensures Inv(SessionStep(y, ReadHistory(id, dbOk), s))
  {
    hide Build, Concat;
    assert SessionOk(y.store, s);
    assert y.store.messages[..|y.store.messages|] == y.store.messages;
    MoveKeepsInv(y, id, SessionStep(y, ReadHistory(id, dbOk), s).sessions[id]);
  }

  lemma SessionStepKeepsInv(y: Server, a: Action, s: Session)
    requires Inv(y) && OfSession(a) && a.id in y.sessions && y.sessions[a.id] == s
    ensures Inv(SessionStep(y, a, s))
  {
    hide Inv, SessionOk;
    if a.ReadHistory? && s.stage.Started? {
      ReadHistoryKeepsInv(y, a.id, s, a.dbOk);
    } else if a.SaveUser? && s.stage.HasKey? && a.dbOk {
      SaveUserKeepsInv(y, a.id, s);
    } else if a.SaveReply? && s.stage.Replied? && a.dbOk {
      SaveReplyKeepsInv(y, a.id, s);
    } else {
      OtherStepKeepsInv(y, a, s);
    }
  }

  lemma OtherStepKeepsInv(y: Server, a: Action, s: Session)
    requires Inv(y) && OfSession(a) && a.id in y.sessions && y.sessions[a.id] == s
    requires !(a.ReadHistory? && s.stage.Started?)
    requires !(a.SaveUser? && s.stage.HasKey? && a.dbOk) && !(a.SaveReply? && s.stage.Replied? && a.dbOk)
    ensures Inv(SessionStep(y, a, s))
  {
    hide Build, Concat, Inv, Log, SessionOk;
    SessionIsOk(y, a.id);
    var t := SessionStep(y, a, s);
    if t == Tick(y) {
      TickKeepsInv(y);
    } else {
      OtherStepMoves(y, a, s);
      MoveKeepsInv(y, a.id, t.sessions[a.id]);
    }
  }

  lemma SessionIsOk(y: Server, id: nat)
    requires Inv(y) && id in y.sessions
    ensures SessionOk(y.store, y.sessions[id])
  {
  }

  /** The other steps store nothing and keep what the session knows. */
  lemma OtherStepMoves(y: Server, a: Action, s: Session)
    requires SessionOk(y.store, s) && OfSession(a) && a.id in y.sessions && y.sessions[a.id] == s
    requires !(a.ReadHistory? && s.stage.Started?)
    requires !(a.SaveUser? && s.stage.HasKey? && a.dbOk) && !(a.SaveReply? && s.stage.Replied? && a.dbOk)
    ensures var t := SessionStep(y, a, s);
            t == Tick(y) || (a.id in t.sessions && t == Move(y, a.id, t.sessions[a.id])
                             && SessionOk(y.store, t.sessions[a.id])
                             && t.sessions[a.id].question == s.question && t.sessions[a.id].answer == s.answer)
  {
    hide Build, Concat, Log;
  }

  lemma StepKeepsInv(y: Server, a: Action)
    requires Inv(y)
    ensures Inv(Step(y, a))
  {
    hide SessionStep, Inv;
    match a
    case Idle => TickKeepsInv(y);
    case NewChat(userId, title, dbOk) => NewChatKeepsInv(y, userId, title, dbOk);
    case Begin(id, userId, chatId, content, streaming, valid) =>
      if id in y.sessions {
        TickKeepsInv(y);
      } else {
        MoveKeepsInv(y, id, Step(y, a).sessions[id]);
      }
    case _ =>
      if a.id in y.sessions {
        SessionStepKeepsInv(y, a, y.sessions[a.id]);
      } else {
        TickKeepsInv(y);
      }
  }

  lemma NewChatKeepsInv(y: Server, userId: string, title: string, dbOk: bool)
    requires Inv(y)
    ensures Inv(Step(y, NewChat(userId, title, dbOk)))
  {
    hide Build, Concat, Log;
    var t := Step(y, NewChat(userId, title, dbOk));
    TickKeepsInv(y);
    if dbOk {
      forall m | m in t.store.messages
        ensures MessageOk(t, m)
      {
        assert MessageOk(y, m);
      }
      forall id | id in t.sessions
        ensures SessionOk(t.store, t.sessions[id])
      {
        assert SessionOk(y.store, y.sessions[id]);
      }
    }
  }

  lemma {:induction false} RunsKeepInv(actions: seq<Action>)
    ensures Inv(Run(actions))
  {
    hide Step, Inv;
    if actions == [] {
      assert Inv(INITIAL) by { InitialInv(); }
    } else {
      RunsKeepInv(actions[..|actions| - 1]);
      StepKeepsInv(Run(actions[..|actions| - 1]), actions[|actions| - 1]);
    }
  }

  lemma InitialInv()
    ensures Inv(INITIAL)
  {
  }
}
