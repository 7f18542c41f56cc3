/** Runs in which a prompt is not all one might expect. */
module ChatExamples {
  import opened ChatLogs
  import opened ChatSessions
  import opened ChatStore
  import opened ChatTurns
  import opened Prompts
  import opened Text
  import opened Wrappers

  /** A session that has stored its question and built its prompt, but not asked yet. */
  function Waiting(userId: string, content: string, readAt: nat, history: seq<Message>, q: Message): Session
  {
    Session(userId, 0, content, false, Calling, readAt, history, Some(q), "", Build("", history, content), [], None)
  }

  // ---- Two sessions at once ------------------------------------------------------------------------

  /** Both sessions have read the empty chat. */
  function BothRead(userId: string, first: string, second: string): seq<Action>
  {
    [NewChat(userId, "", true)]
    + [Begin(0, userId, 0, first, false, true)] + [ReadHistory(0, true)] + [GetKey(0, true)]
    + [Begin(1, userId, 0, second, false, true)] + [ReadHistory(1, true)] + [GetKey(1, true)]
  }

  function ReadyToSave(userId: string, content: string): Session
  {
    Session(userId, 0, content, false, HasKey, 0, [], None, "", [], [], None)
  }

  lemma BothReadIs(userId: string, first: string, second: string)
    ensures Run(BothRead(userId, first, second)) ==
            Server(7, Store(map[0 := Chat(0, userId, "", 0, 0)], 1, []),
                   map[0 := ReadyToSave(userId, first), 1 := ReadyToSave(userId, second)], map[])
  {
    hide Steps, Build, Concat;
    var a1 := [NewChat(userId, "", true)];
    var a2 := a1 + [Begin(0, userId, 0, first, false, true)];
    var a3 := a2 + [ReadHistory(0, true)];
    var a4 := a3 + [GetKey(0, true)];
    var a5 := a4 + [Begin(1, userId, 0, second, false, true)];
    var a6 := a5 + [ReadHistory(1, true)];
    NoSteps(INITIAL);
    OneMoreStep(INITIAL, [], a1[0]);
    assert [] + a1 == a1;
    OneMoreStep(INITIAL, a1, Begin(0, userId, 0, first, false, true));
    OneMoreStep(INITIAL, a2, ReadHistory(0, true));
    OneMoreStep(INITIAL, a3, GetKey(0, true));
    OneMoreStep(INITIAL, a4, Begin(1, userId, 0, second, false, true));
    OneMoreStep(INITIAL, a5, ReadHistory(1, true));
    OneMoreStep(INITIAL, a6, GetKey(1, true));
  }

  /** Whatever two sessions of one chat say, one prompt can miss what the other has already stored. */
  lemma PromptMissesAnother(userId: string, first: string, second: string)
    ensures exists actions ::
              && 0 in Run(actions).sessions && Prompted(Run(actions).sessions[0])
              && var messages, s := Run(actions).store.messages, Run(actions).sessions[0];
                 && s.content == first && s.question.Some? && s.question.value.id == 1 && |messages| == 2
                 && messages[0].content == second && messages[0].chatId == s.chatId
                 && s.history != Log(messages[..s.question.value.id], s.chatId)
  {
    hide Steps, Build, Concat;
    var a := BothRead(userId, first, second);
    BothReadIs(userId, first, second);
    var b := a + [SaveUser(1, true)];
    var c := b + [SaveUser(0, true)];
    OneMoreStep(INITIAL, a, SaveUser(1, true));
    OneMoreStep(INITIAL, b, SaveUser(0, true));
    OneMoreStep(INITIAL, c, BuildPrompt(0, ""));
    var y := Run(c + [BuildPrompt(0, "")]);
    var m := Message(0, 0, User, second, 7);
    assert y.store.messages[..1] == [] + [m];
    LogAppend([], m, 0);
    assert 0 in y.sessions;
  }

  // ---- An empty content ----------------------------------------------------------------------------

  /** One whole turn in a new chat. */
  function OneTurn(userId: string, content: string, reply: string): seq<Action>
  {
    [NewChat(userId, "", true)]
    + [Begin(0, userId, 0, content, false, true)] + [ReadHistory(0, true)] + [GetKey(0, true)] + [SaveUser(0, true)]
    + [BuildPrompt(0, "")] + [Generate(0, Some(reply))] + [SaveReply(0, true)]
  }

  function Answered(userId: string, content: string, reply: string): Session
  {
    Waiting(userId, content, 0, [], Message(0, 0, User, content, 4))
      .(stage := Done, chunks := [reply], answer := Some(Message(1, 0, Assistant, reply, 7)))
  }

  lemma OneTurnIs(userId: string, content: string, reply: string)
    ensures Run(OneTurn(userId, content, reply)) ==
            Server(8, Store(map[0 := Chat(0, userId, "", 0, 7)], 1,
                            [Message(0, 0, User, content, 4), Message(1, 0, Assistant, reply, 7)]),
                   map[0 := Answered(userId, content, reply)], map[0 := 0, 1 := 0])
  {
    hide Steps, Build, Concat;
    var a1 := [NewChat(userId, "", true)];
    var a2 := a1 + [Begin(0, userId, 0, content, false, true)];
    var a3 := a2 + [ReadHistory(0, true)];
    var a4 := a3 + [GetKey(0, true)];
    var a5 := a4 + [SaveUser(0, true)];
    var a6 := a5 + [BuildPrompt(0, "")];
    var a7 := a6 + [Generate(0, Some(reply))];
    NoSteps(INITIAL);
    OneMoreStep(INITIAL, [], a1[0]);
    assert [] + a1 == a1;
    OneMoreStep(INITIAL, a1, Begin(0, userId, 0, content, false, true));
    OneMoreStep(INITIAL, a2, ReadHistory(0, true));
    OneMoreStep(INITIAL, a3, GetKey(0, true));
    OneMoreStep(INITIAL, a4, SaveUser(0, true));
    OneMoreStep(INITIAL, a5, BuildPrompt(0, ""));
    OneMoreStep(INITIAL, a6, Generate(0, Some(reply)));
    OneMoreStep(INITIAL, a7, SaveReply(0, true));
    ConcatOne(reply);
  }

  /** And the next one, up to its prompt. */
  function TwoTurns(userId: string, content: string, reply: string, next: string): seq<Action>
  {
    OneTurn(userId, content, reply)
    + [Begin(1, userId, 0, next, false, true)] + [ReadHistory(1, true)] + [GetKey(1, true)] + [SaveUser(1, true)]
    + [BuildPrompt(1, "")]
  }

  lemma TwoTurnsAre(userId: string, content: string, reply: string, next: string)
    ensures var y := Run(TwoTurns(userId, content, reply, next));
            && NextTurn(y, 0, 1) && y.sessions[0].content == content && y.sessions[1].content == next
  {
    hide Steps, Build, Concat, Log, OneTurn;
    var a := OneTurn(userId, content, reply);
    OneTurnIs(userId, content, reply);
    var b := a + [Begin(1, userId, 0, next, false, true)];
    var c := b + [ReadHistory(1, true)];
    var d := c + [GetKey(1, true)];
    var e := d + [SaveUser(1, true)];
    OneMoreStep(INITIAL, a, Begin(1, userId, 0, next, false, true));
    OneMoreStep(INITIAL, b, ReadHistory(1, true));
    OneMoreStep(INITIAL, c, GetKey(1, true));
    OneMoreStep(INITIAL, d, SaveUser(1, true));
    OneMoreStep(INITIAL, e, BuildPrompt(1, ""));
  }

  /** The second of two consecutive sends does not extend the first prompt if either content is empty. */
  lemma EmptyContentIsLost(userId: string, content: string, reply: string, next: string)
    requires content == "" || next == ""
    ensures exists actions ::
              && NextTurn(Run(actions), 0, 1)
              && var s1, s2 := Run(actions).sessions[0], Run(actions).sessions[1];
                 && s1.content == content && s2.content == next
                 && Dialogue(s2.prompt) != Dialogue(s1.prompt) + [Said(Assistant, s1.answer.value.content)] + [Said(User, next)]
  {
    hide Run, TwoTurns, Dialogue;
    TwoTurnsAre(userId, content, reply, next);
    SerialPromptsGrow(TwoTurns(userId, content, reply, next), 0, 1);
  }
}
