/**
  Sending a message: the chat service over chat repository, key service and AI client. Database calls,
  provider and clock come in as arguments.
 */
module ChatServices {
  import opened Accounts
  import opened ChatStore
  import opened ChatStream
  import opened GoBytes
  import opened Html
  import opened Prompts
  import opened Registry
  import opened Services
  import opened Text
  import opened Wrappers

  datatype ChatError =
    InvalidRequest | ChatNotFound | ChatUnread | KeyFailed(error: ReadError) | MessageUnsaved | ProviderFailed

  /** A message to send. */
  datatype Sending = Sending(chatId: nat, userId: string, content: string, provider: Provider, modelId: string)

  /** How the calls that prepare a session end. */
  datatype Calls = Calls(readOk: bool, keyOk: bool, insertOk: bool, updateOk: bool, askedAt: int, profile: Option<string>)

  /** How the call that stores the reply ends. */
  datatype LastCall = LastCall(insertOk: bool, updateOk: bool, answeredAt: int)

  datatype SessionContext = SessionContext(chat: Conversation, apiKey: Bytes, userMsg: Message, systemPrompt: string)

  /** What a provider is asked. */
  datatype Ask = Ask(provider: Provider, modelId: string, apiKey: Bytes, messages: seq<Said>)

  /** A stream that has been opened: its chunks, and whether it ends in an error. */
  datatype TextStream = TextStream(chunks: seq<string>, interrupted: bool)

  datatype StreamResult = StreamResult(userMessage: Message, stream: TextStream)

  // ---- What the operations promise -----------------------------------------------------------------

  predicate WellFormed(q: Sending)
  {
    IsValid(q.provider) && q.modelId != ""
  }

  /** The user message is stored iff all of this holds. */
  predicate MayStore(s: Store, q: Sending, c: Calls, keyFound: bool)
  {
    && WellFormed(q) && c.readOk && ConversationOf(s, q.chatId, q.userId).Some? && c.keyOk && keyFound
    && c.insertOk && c.updateOk
  }

  ghost predicate MayAsk(env: Env, w: World, s: Store, q: Sending, c: Calls)
  {
    MayStore(s, q, c, StoredKey(env, w.table, q.userId, q.provider).Some?)
  }

  function Question(s: Store, q: Sending, c: Calls): Message
  {
    NewMessage(s, q.chatId, User, q.content, c.askedAt)
  }

  function SystemPrompt(c: Calls): string
  {
    if c.profile.Some? then c.profile.value else ""
  }

  /** The request to the provider: past messages as they were before the new one was stored. */
  function AskOf(q: Sending, history: seq<Message>, apiKey: Bytes, c: Calls): Option<Ask>
  {
    var key, name := TrimSpace(apiKey), Trim(q.modelId, GoSpace);
    if key == [] || name == "" then None
    else Some(Ask(q.provider, name, key, Build(SystemPrompt(c), history, q.content)))
  }

  /** There is a request unless key or model is blank, and it is for these and spells out all that was said. */
  ghost predicate Asks(ask: Option<Ask>, q: Sending, systemPrompt: string, history: seq<Message>, apiKey: Bytes)
  {
    && (ask.None? <==> TrimSpace(apiKey) == [] || Trim(q.modelId, GoSpace) == "")
    && (ask.Some? ==>
          var messages := ask.value.messages;
          && ask.value.provider == q.provider && ask.value.modelId == Trim(q.modelId, GoSpace)
          && ask.value.apiKey == TrimSpace(apiKey)
          && SpellsOut(messages, systemPrompt, history, q.content)
          && Dialogue(messages) == Dialogue(Repeat(history)) + Optional(User, q.content)
          && Instructions(messages) == Optional(System, Trim(systemPrompt, GoSpace)) + Instructions(Repeat(history)))
  }

  lemma AskOfAsks(q: Sending, history: seq<Message>, apiKey: Bytes, c: Calls)
    ensures Asks(AskOf(q, history, apiKey, c), q, SystemPrompt(c), history, apiKey)
  {
    hide TrimSpace, Trim, Build, SpellsOut, Dialogue, Instructions, Repeat, Optional, SystemPrompt;
    BuildSpellsOut(SystemPrompt(c), history, q.content);
    DialogueOfPrompt(SystemPrompt(c), history, q.content);
    InstructionsOfPrompt(SystemPrompt(c), history, q.content);
  }

  /** The request a sending leads to, if it may ask at all. */
  function Asked(env: Env, w: World, s: Store, q: Sending, c: Calls): Option<Ask>
    requires MayAsk(env, w, s, q, c)
  {
    AskOf(q, ConversationOf(s, q.chatId, q.userId).value.history,
          StoredKey(env, w.table, q.userId, q.provider).value, c)
  }

  /** The store after a sending: nothing, the question alone, or question and reply. */
  function AfterSend(s: Store, q: Sending, asked: bool, askedAt: int, reply: Option<string>, saved: bool, answeredAt: int)
    : Store
  {
    if !asked then s
    else
      var one := Append(s, NewMessage(s, q.chatId, User, q.content, askedAt));
      if reply.None? || !saved then one
      else Append(one, NewMessage(one, q.chatId, Assistant, reply.value, answeredAt))
  }

  // ---- The service ---------------------------------------------------------------------------------

  class ChatService {
    const repo: ChatRepository
    const keyService: UserAPIKeyService

    constructor (repo: ChatRepository, keyService: UserAPIKeyService)
      ensures this.repo == repo && this.keyService == keyService
    {
      this.repo := repo;
      this.keyService := keyService;
    }

    ghost predicate May(q: Sending, c: Calls)
      reads repo, keyService.repo, keyService.cache, keyService.cache.Slices()
    {
      MayAsk(keyService.env, keyService.State(), repo.View(), q, c)
    }

    method PrepareSessionContext(q: Sending, c: Calls) returns (r: Result<SessionContext, ChatError>)
      requires Valid(repo.View()) && Later(repo.View(), c.askedAt)
      modifies repo
      ensures Valid(repo.View())
      ensures r.Ok? <==> old(May(q, c))
      ensures r.Ok? ==>
                && Some(r.value.chat) == ConversationOf(old(repo.View()), q.chatId, q.userId)
                && Some(r.value.apiKey) == old(StoredKey(keyService.env, keyService.State().table, q.userId, q.provider))
                && r.value.userMsg == Question(old(repo.View()), q, c)
                && r.value.systemPrompt == (if c.profile.Some? then c.profile.value else "")
                && repo.View() == Append(old(repo.View()), r.value.userMsg)
      ensures r.Err? ==> repo.View() == old(repo.View())
      ensures r == Err(InvalidRequest) <==> !WellFormed(q)
      ensures r == Err(ChatNotFound) <==>
              WellFormed(q) && c.readOk && ConversationOf(old(repo.View()), q.chatId, q.userId).None?
      ensures r == Err(KeyFailed(Unregistered)) <==>
              && WellFormed(q) && c.readOk && ConversationOf(old(repo.View()), q.chatId, q.userId).Some?
              && c.keyOk && (q.userId, q.provider) !in old(keyService.State()).table
      ensures r == Err(ChatUnread) <==> WellFormed(q) && !c.readOk
      ensures r == Err(KeyFailed(ReadFailed)) <==>
              WellFormed(q) && c.readOk && ConversationOf(old(repo.View()), q.chatId, q.userId).Some? && !c.keyOk
      ensures r.Err? && r.error.KeyFailed? && r.error.error.Undecryptable? <==>
              && WellFormed(q) && c.readOk && ConversationOf(old(repo.View()), q.chatId, q.userId).Some?
              && c.keyOk && (q.userId, q.provider) in old(keyService.State()).table
              && old(StoredKey(keyService.env, keyService.State().table, q.userId, q.provider)).None?
      ensures r != Err(ProviderFailed)
      ensures r == Err(MessageUnsaved) <==>
              old(May(q, c.(insertOk := true, updateOk := true))) && !(c.insertOk && c.updateOk)
    {
      hide StoredKey, Log;
      if !IsValid(q.provider) {
        return Err(InvalidRequest);
      }
      if q.modelId == "" {
        return Err(InvalidRequest);
      }
      var chat := repo.GetWithMessages(q.chatId, q.userId, c.readOk);
      if chat.Err? {
        return Err(if chat.error == RecordNotFound then ChatNotFound else ChatUnread);
      }
      var apiKey := keyService.GetDecryptedKey(q.userId, q.provider, c.keyOk);
      if apiKey.Err? {
        return Err(KeyFailed(apiKey.error));
      }
      var userMsg := repo.CreateMessage(q.chatId, User, q.content, c.askedAt, c.insertOk, c.updateOk);
      if userMsg.None? {
        return Err(MessageUnsaved);
      }
      var systemPrompt := "";
      if c.profile.Some? {
        systemPrompt := c.profile.value;
      }
      r := Ok(SessionContext(chat.value, apiKey.value, userMsg.value, systemPrompt));
    }

    /** `CreateModel` and `buildMessages` of the AI client. */
    method MakeAsk(q: Sending, session: SessionContext) returns (ask: Option<Ask>)
      ensures forall c: Calls | SystemPrompt(c) == session.systemPrompt ::
                ask == AskOf(q, session.chat.history, session.apiKey, c)
      ensures Asks(ask, q, session.systemPrompt, session.chat.history, session.apiKey)
    {
      hide TrimSpace, Trim, Build, SpellsOut, Dialogue, Instructions, Repeat, Optional;
      DialogueOfPrompt(session.systemPrompt, session.chat.history, q.content);
      InstructionsOfPrompt(session.systemPrompt, session.chat.history, q.content);
      var key, name := TrimSpace(session.apiKey), Trim(q.modelId, GoSpace);
      if key == [] {
        return None;
      }
      if name == "" {
        return None;
      }
      var messages := BuildMessages(session.systemPrompt, session.chat.history, q.content);
      ask := Some(Ask(q.provider, name, key, messages));
    }

    method SendMessage(q: Sending, c: Calls, generate: Ask -> Option<string>, last: LastCall)
      returns (r: Result<(Message, Message), ChatError>)
      requires Valid(repo.View()) && Later(repo.View(), c.askedAt) && c.askedAt < last.answeredAt
      modifies repo
      ensures Valid(repo.View())
      ensures var before := old(repo.View());
              && (!old(May(q, c)) ==> r.Err? && repo.View() == before)
              && (old(May(q, c)) ==>
                    var ask := Asked(keyService.env, old(keyService.State()), before, q, c);
                    var reply := if ask.Some? then generate(ask.value) else None;
                    var saved := last.insertOk && last.updateOk;
                    && Asks(ask, q, if c.profile.Some? then c.profile.value else "",
                            ConversationOf(before, q.chatId, q.userId).value.history,
                            old(StoredKey(keyService.env, keyService.State().table, q.userId, q.provider)).value)
                    && repo.View() == AfterSend(before, q, true, c.askedAt, reply, saved, last.answeredAt)
                    && (r == Err(ProviderFailed) <==> reply.None?)
                    && (r.Ok? <==> reply.Some? && saved)
                    && (r.Ok? ==> repo.messages == before.messages + [r.value.0] + [r.value.1]
                                  && r.value.0 == Question(before, q, c) && r.value.1.content == reply.value))
    {
      hide StoredKey, Log, AskOf, Asks;
      var session := PrepareSessionContext(q, c);
      if session.Err? {
        return Err(session.error);
      }
      var ask := MakeAsk(q, session.value);
      if ask.None? {
        return Err(ProviderFailed);
      }
      var aiContent := generate(ask.value);
      if aiContent.None? {
        return Err(ProviderFailed);
      }
      var aiMsg := repo.CreateMessage(q.chatId, Assistant, aiContent.value, last.answeredAt, last.insertOk, last.updateOk);
      if aiMsg.None? {
        return Err(MessageUnsaved);
      }
      r := Ok((session.value.userMsg, aiMsg.value));
    }

    method StreamMessage(q: Sending, c: Calls, open: Ask -> Option<TextStream>)
      returns (r: Result<StreamResult, ChatError>)
      requires Valid(repo.View()) && Later(repo.View(), c.askedAt)
      modifies repo
      ensures Valid(repo.View())
      ensures var before := old(repo.View());
              && (!old(May(q, c)) ==> r.Err? && r != Err(ProviderFailed) && repo.View() == before)
              && (old(May(q, c)) ==>
                    var ask := Asked(keyService.env, old(keyService.State()), before, q, c);
                    var stream := if ask.Some? then open(ask.value) else None;
                    && Asks(ask, q, if c.profile.Some? then c.profile.value else "",
                            ConversationOf(before, q.chatId, q.userId).value.history,
                            old(StoredKey(keyService.env, keyService.State().table, q.userId, q.provider)).value)
                    && repo.View() == Append(before, Question(before, q, c))
                    && r == match stream
                            case Some(chunks) => Ok(StreamResult(Question(before, q, c), chunks))
                            case None => Err(ProviderFailed))
    {
      hide StoredKey, Log, AskOf, Asks;
      var session := PrepareSessionContext(q, c);
      if session.Err? {
        return Err(session.error);
      }
      var ask := MakeAsk(q, session.value);
      if ask.None? {
        return Err(ProviderFailed);
      }
      var stream := open(ask.value);
      if stream.None? {
        return Err(ProviderFailed);
      }
      r := Ok(StreamResult(session.value.userMsg, stream.value));
    }
  }

  // ---- A streamed sending from the request to the bubble --------------------------------------------

  /**
    Service, handler, network and browser. When all went well the chat has gained the question and the whole
    reply, and the bubble shows exactly the stored reply; otherwise at most the question is stored.
   */
  method StreamToBrowser(s: ChatService, q: Sending, c: Calls, open: Ask -> Option<TextStream>, last: LastCall,
                         w: EventWriter, json: Message -> string, network: string -> Delivery, bubble: AiBubble)
    returns (r: Result<Ending, ChatError>)
    requires Valid(s.repo.View()) && Later(s.repo.View(), c.askedAt) && c.askedAt < last.answeredAt
    requires w.wire == "" && forall m :: JsonText(json(m))
    requires Delivers(network)
    modifies s.repo, w, bubble
    ensures !old(s.May(q, c)) ==> r.Err? && s.repo.View() == old(s.repo.View())
    ensures old(s.May(q, c)) ==>
              var before := old(s.repo.View());
              var ask := Asked(s.keyService.env, old(s.keyService.State()), before, q, c);
              var stream := if ask.Some? then open(ask.value) else None;
              var reply := if stream.Some? && !stream.value.interrupted then Some(Concat(stream.value.chunks)) else None;
              var saved := last.insertOk && last.updateOk;
              && s.repo.View() == AfterSend(before, q, true, c.askedAt, reply, saved, last.answeredAt)
              && (r.Ok? <==> stream.Some?)
              && (r.Ok? ==> (r.value.Saved? <==> reply.Some? && saved)
                            && Shown(bubble.innerHTML, w.wire, network(w.wire), stream.value.chunks, r.value))
              && (r.Ok? && r.value.Saved? ==>
                    && s.repo.messages == before.messages + [Question(before, q, c)] + [r.value.message]
                    && (network(w.wire).error.None? && Concat(network(w.wire).parts) == w.wire ==>
                          bubble.innerHTML == EscapeHtml(r.value.message.content)))
  {
    hide EscapeHtml, Asked, Log, Shown, StoredKey, Delivers, Asks, WellFormed;
    var result := s.StreamMessage(q, c, open);
    if result.Err? {
      return Err(result.error);
    }
    var ending := StreamedReply(w, s.repo, q.chatId, result.value.userMessage, result.value.stream.chunks,
                                result.value.stream.interrupted, last.answeredAt, last.insertOk, last.updateOk,
                                json, network, bubble);
    r := Ok(ending);
  }
}
