/** Chats and messages as tables, and the operations of the chat repository on them. */
module ChatStore {
  import opened Wrappers

  datatype Role = User | Assistant | System | Other(name: string)

  datatype Message = Message(id: nat, chatId: nat, role: Role, content: string, createdAt: int)

  datatype Chat = Chat(id: nat, userId: string, title: string, createdAt: int, updatedAt: int)

  /** Rows are never deleted, so the next message id is the number of rows. */
  datatype Store = Store(chats: map<nat, Chat>, nextChat: nat, messages: seq<Message>)

  /** A chat and its past messages. */
  datatype Conversation = Conversation(chat: Chat, history: seq<Message>)

  // ---- What the operations do to the tables --------------------------------------------------------

  function WithChat(s: Store, userId: string, title: string, now: int): Store
  {
    s.(chats := s.chats[s.nextChat := Chat(s.nextChat, userId, title, now, now)], nextChat := s.nextChat + 1)
  }

  function NewMessage(s: Store, chatId: nat, role: Role, content: string, now: int): Message
  {
    Message(|s.messages|, chatId, role, content, now)
  }

  /** One row more, and the chat's time of update. */
  function Append(s: Store, m: Message): Store
  {
    if m.chatId in s.chats
    then s.(messages := s.messages + [m], chats := s.chats[m.chatId := s.chats[m.chatId].(updatedAt := m.createdAt)])
    else s
  }

  /** The rows of one chat in insertion order. */
  function Log(messages: seq<Message>, chatId: nat): (log: seq<Message>)
  {
    if messages == [] then []
    else
      var before, last := Log(messages[..|messages| - 1], chatId), messages[|messages| - 1];
      if last.chatId == chatId then before + [last] else before
  }

  function ConversationOf(s: Store, chatId: nat, userId: string): (c: Option<Conversation>)
  {
    if chatId in s.chats && s.chats[chatId].userId == userId
    then Some(Conversation(s.chats[chatId], Log(s.messages, chatId)))
    else None
  }

  // ---- Invariants ---------------------------------------------------------------------------------

  ghost predicate Valid(s: Store)
  {
    && (forall c | c in s.chats :: c < s.nextChat && s.chats[c].id == c)
    && (forall i | 0 <= i < |s.messages| :: s.messages[i].id == i && s.messages[i].chatId in s.chats)
    && (forall i, j | 0 <= i < j < |s.messages| :: s.messages[i].createdAt < s.messages[j].createdAt)
  }

  /** `now` is later than every message. */
  predicate Later(s: Store, now: int)
  {
    forall m | m in s.messages :: m.createdAt < now
  }

  lemma AppendKeepsValid(s: Store, chatId: nat, role: Role, content: string, now: int)
    requires Valid(s) && Later(s, now)
    ensures Valid(Append(s, NewMessage(s, chatId, role, content, now)))
  {
  }

  lemma LogAppend(messages: seq<Message>, m: Message, chatId: nat)
    ensures Log(messages + [m], chatId) == Log(messages, chatId) + if m.chatId == chatId then [m] else []
  {
    assert (messages + [m])[..|messages|] == messages;
  }

  lemma {:induction false} LogSplits(a: seq<Message>, b: seq<Message>, chatId: nat)
    ensures Log(a + b, chatId) == Log(a, chatId) + Log(b, chatId)
  {
    if b == [] {
      assert a + b == a;
    } else {
      var init := b[..|b| - 1];
      assert (a + b)[..|a + b| - 1] == a + init;
      LogSplits(a, init, chatId);
    }
  }

  /** The history handed out is exactly the chat's rows, oldest first. */
  lemma {:induction false} LogIsHistory(messages: seq<Message>, chatId: nat)
    requires forall i, j | 0 <= i < j < |messages| :: messages[i].createdAt < messages[j].createdAt
    ensures forall m :: m in Log(messages, chatId) <==> m in messages && m.chatId == chatId
    ensures forall i, j | 0 <= i < j < |Log(messages, chatId)| ::
              Log(messages, chatId)[i].createdAt < Log(messages, chatId)[j].createdAt
  {
    if messages == [] {
    } else {
      var init, last := messages[..|messages| - 1], messages[|messages| - 1];
      assert messages == init + [last];
      LogIsHistory(init, chatId);
      forall m | m in Log(init, chatId)
        ensures m.createdAt < last.createdAt
      {
        assert m in init;
      }
    }
  }

  /** `list` is what `Order("updated_at DESC")` may return for the chats of `userId`. */
  ghost predicate Listing(s: Store, userId: string, list: seq<Chat>)
  {
    && (forall c | c in list :: c.id in s.chats && s.chats[c.id] == c && c.userId == userId)
    && (forall id | id in s.chats && s.chats[id].userId == userId :: s.chats[id] in list)
    && (forall i, j | 0 <= i < j < |list| :: list[i].id != list[j].id && list[i].updatedAt >= list[j].updatedAt)
  }

  /** A new message brings its chat to the top of its owner's list. */
  lemma NewMessageListsFirst(s: Store, m: Message, after: seq<Chat>)
    requires m.chatId in s.chats
    requires forall c | c in s.chats :: s.chats[c].id == c && s.chats[c].updatedAt < m.createdAt
    requires Listing(Append(s, m), s.chats[m.chatId].userId, after)
    ensures after != [] && after[0] == Append(s, m).chats[m.chatId]
  {
  }

  /** The lists of everybody else stay what they were. */
  lemma NewMessageKeepsOtherLists(s: Store, m: Message, userId: string, list: seq<Chat>)
    requires m.chatId in s.chats && s.chats[m.chatId].userId != userId
    ensures Listing(s, userId, list) <==> Listing(Append(s, m), userId, list)
  {
    var s' := Append(s, m);
    assert s'.chats.Keys == s.chats.Keys;
    assert forall id | id in s.chats && id != m.chatId :: s'.chats[id] == s.chats[id];
    assert s'.chats[m.chatId].userId == s.chats[m.chatId].userId;
    if Listing(s', userId, list) {
      forall id | id in s.chats && s.chats[id].userId == userId
        ensures s.chats[id] in list
      {
        assert id in s'.chats && s'.chats[id] == s.chats[id];
      }
    }
    if Listing(s, userId, list) {
      forall id | id in s'.chats && s'.chats[id].userId == userId
        ensures s'.chats[id] in list
      {
        assert id in s.chats && s'.chats[id] == s.chats[id];
      }
    }
  }

  // ---- The repository ------------------------------------------------------------------------------

  /** Over a database whose calls may fail; `insertOk` and `updateOk` say how a call ends. */
  class ChatRepository {
    var chats: map<nat, Chat>
    var nextChat: nat
    var messages: seq<Message>

    ghost function View(): Store
      reads this
    {
      Store(chats, nextChat, messages)
    }

    constructor ()
      ensures View() == Store(map[], 0, []) && Valid(View())
    {
      chats := map[];
      nextChat := 0;
      messages := [];
    }

    method Create(userId: string, title: string, now: int, insertOk: bool) returns (r: Option<Chat>)
      requires Valid(View())
      modifies this
      ensures Valid(View())
      ensures View() == if insertOk then WithChat(old(View()), userId, title, now) else old(View())
      ensures r == if insertOk then Some(Chat(old(nextChat), userId, title, now, now)) else None
      ensures messages == old(messages) && chats.Keys == old(chats).Keys + if insertOk then {old(nextChat)} else {}
      ensures r.Some? ==> old(nextChat) !in old(chats) && chats[old(nextChat)] == r.value
      ensures forall id | id in old(chats) :: chats[id] == old(chats)[id]
    {
      if !insertOk {
        return None;
      }
      var chat := Chat(nextChat, userId, title, now, now);
      chats := chats[nextChat := chat];
      nextChat := nextChat + 1;
      r := Some(chat);
    }

    method GetWithMessages(chatId: nat, userId: string, dbOk: bool) returns (r: Result<Conversation, DbError>)
      requires Valid(View())
      ensures r.Ok? <==> dbOk && ConversationOf(View(), chatId, userId).Some?
      ensures r.Ok? ==> r.value.chat.id == chatId && r.value.chat.userId == userId
      ensures r.Ok? ==> r.value == ConversationOf(View(), chatId, userId).value
      ensures r.Ok? ==> forall m :: m in r.value.history <==> m in messages && m.chatId == chatId
      ensures r.Ok? ==> forall i, j | 0 <= i < j < |r.value.history| ::
                r.value.history[i].createdAt < r.value.history[j].createdAt
      ensures r == Err(DbFailed) <==> !dbOk
    {
      if !dbOk {
        return Err(DbFailed);
      }
      if chatId !in chats || chats[chatId].userId != userId {
        return Err(RecordNotFound);
      }
      LogIsHistory(messages, chatId);
      r := Ok(Conversation(chats[chatId], Log(messages, chatId)));
    }

    /** Both writes or neither: a failed update takes the inserted row back. */
    method CreateMessage(chatId: nat, role: Role, content: string, now: int, insertOk: bool, updateOk: bool)
      returns (r: Option<Message>)
      requires Valid(View()) && Later(View(), now)
      modifies this
      ensures Valid(View())
      ensures r.Some? <==> insertOk && updateOk && chatId in old(chats)
      ensures r.Some? ==> r.value == NewMessage(old(View()), chatId, role, content, now)
      ensures View() == if r.Some? then Append(old(View()), r.value) else old(View())
      ensures r.Some? ==>
                && messages == old(messages) + [Message(|old(messages)|, chatId, role, content, now)]
                && chats.Keys == old(chats).Keys
                && chats[chatId] == Chat(chatId, old(chats)[chatId].userId, old(chats)[chatId].title,
                                         old(chats)[chatId].createdAt, now)
                && forall id | id in chats && id != chatId :: chats[id] == old(chats)[id]
    {
      AppendKeepsValid(View(), chatId, role, content, now);
      if !insertOk || chatId !in chats {
        return None;
      }
      var snapshot := messages;
      var msg := Message(|messages|, chatId, role, content, now);
      messages := messages + [msg];
      if !updateOk {
        messages := snapshot;
        return None;
      }
      chats := chats[chatId := chats[chatId].(updatedAt := now)];
      r := Some(msg);
    }
  }
}
