/** What every reachable chat log holds and what every prompt contains, whatever the interleaving. */
module ChatLogs {
  import opened ChatSessions
  import opened ChatStore
  import opened Prompts
  import opened Text
  import opened Wrappers

  // ---- Questions and replies -----------------------------------------------------------------------

  function Count(log: seq<Message>, role: Role): (n: nat)
  {
    if log == [] then 0
    else Count(log[..|log| - 1], role) + if log[|log| - 1].role == role then 1 else 0
  }

  /** No prefix holds more replies than questions. */
  predicate RepliesFollowQuestions(log: seq<Message>)
  {
    forall k | 0 <= k <= |log| :: Count(log[..k], Assistant) <= Count(log[..k], User)
  }

  /** The session has asked in this chat and stored no reply. */
  predicate Open(s: Session, chatId: nat)
  {
    s.chatId == chatId && Asked(s) && !s.stage.Done?
  }

  function OpenIn(y: Server, chatId: nat): set<nat>
  {
    set id | id in y.sessions && Open(y.sessions[id], chatId)
  }

  function InFlight(y: Server, chatId: nat): set<nat>
  {
    set id | id in y.sessions && Open(y.sessions[id], chatId) && !y.sessions[id].stage.Failed?
  }

  function FailedIn(y: Server, chatId: nat): set<nat>
  {
    set id | id in y.sessions && y.sessions[id].chatId == chatId && y.sessions[id].stage.Failed?
  }

  predicate Balanced(y: Server, chatId: nat)
  {
    var log := Log(y.store.messages, chatId);
    && RepliesFollowQuestions(log)
    && Count(log, User) == Count(log, Assistant) + |OpenIn(y, chatId)|
    && Count(log, User) + Count(log, Assistant) == |log|
  }

  lemma CountAppend(log: seq<Message>, m: Message, role: Role)
    ensures Count(log + [m], role) == Count(log, role) + if m.role == role then 1 else 0
  {
    assert (log + [m])[..|log|] == log;
  }

  lemma PrefixesAppend(log: seq<Message>, m: Message)
    requires RepliesFollowQuestions(log)
    requires m.role == User || (m.role == Assistant && Count(log, Assistant) < Count(log, User))
    ensures RepliesFollowQuestions(log + [m])
  {
    hide Count;
    assert log[..|log|] == log;
    forall k | 0 <= k <= |log + [m]|
      ensures Count((log + [m])[..k], Assistant) <= Count((log + [m])[..k], User)
    {
      if k <= |log| {
        assert (log + [m])[..k] == log[..k];
      } else {
        assert (log + [m])[..k] == log + [m];
        CountAppend(log, m, Assistant);
        CountAppend(log, m, User);
      }
    }
  }

  /** The open sessions after one session has moved. */
  lemma OpenAfterMove(y: Server, t: Server, id: nat, s: Session, chatId: nat)
    requires t.sessions == y.sessions[id := s]
    ensures OpenIn(t, chatId) == (OpenIn(y, chatId) - {id}) + if Open(s, chatId) then {id} else {}
  {
  }

  lemma NotOpen(y: Server, id: nat, chatId: nat)
    requires id in y.sessions
    ensures id in OpenIn(y, chatId) <==> Open(y.sessions[id], chatId)
  {
  }

  /** A question opens its session and a reply closes it. */
  lemma SaveKeepsBalance(y: Server, t: Server, id: nat, m: Message, chatId: nat)
    requires Balanced(y, chatId) && id in y.sessions && id in t.sessions
    requires t.store.messages == y.store.messages + [m] && t.sessions == y.sessions[id := t.sessions[id]]
    requires m.chatId == y.sessions[id].chatId == t.sessions[id].chatId
    requires m.role == User || m.role == Assistant
    requires Open(t.sessions[id], m.chatId) == (m.role == User) != Open(y.sessions[id], m.chatId)
    ensures Balanced(t, chatId)
  {
    hide Log, Count, RepliesFollowQuestions, OpenIn;
    var log := Log(y.store.messages, chatId);
    LogAppend(y.store.messages, m, chatId);
    OpenAfterMove(y, t, id, t.sessions[id], chatId);
    NotOpen(y, id, chatId);
    if m.chatId == chatId {
      CountAppend(log, m, User);
      CountAppend(log, m, Assistant);
      if m.role == User {
        assert OpenIn(t, chatId) == OpenIn(y, chatId) + {id};
      } else {
        assert id in OpenIn(y, chatId);
        assert OpenIn(t, chatId) == OpenIn(y, chatId) - {id};
      }
      PrefixesAppend(log, m);
    } else {
      assert OpenIn(t, chatId) == OpenIn(y, chatId);
      assert Log(t.store.messages, chatId) == log;
    }
  }

  lemma SaveUserKeepsBalance(y: Server, id: nat, s: Session, chatId: nat)
    requires Inv(y) && Balanced(y, chatId) && id in y.sessions && y.sessions[id] == s && s.stage.HasKey?
    ensures Balanced(SessionStep(y, SaveUser(id, true), s), chatId)
  {
    hide Inv, Log, Balanced, Concat, Build;
    SessionIsOk(y, id);
    var t := SessionStep(y, SaveUser(id, true), s);
    SaveKeepsBalance(y, t, id, t.sessions[id].question.value, chatId);
  }

  lemma SaveReplyKeepsBalance(y: Server, id: nat, s: Session, chatId: nat)
    requires Inv(y) && Balanced(y, chatId) && id in y.sessions && y.sessions[id] == s && s.stage.Replied?
    ensures Balanced(SessionStep(y, SaveReply(id, true), s), chatId)
  {
    hide Inv, Log, Balanced, Concat, Build;
    SessionIsOk(y, id);
    var t := SessionStep(y, SaveReply(id, true), s);
    SaveKeepsBalance(y, t, id, t.sessions[id].answer.value, chatId);
  }

  /** Every step but a successful save. */
  predicate Quiet(y: Server, a: Action)
  {
    && !(a.SaveUser? && a.dbOk && a.id in y.sessions && y.sessions[a.id].stage.HasKey?)
    && !(a.SaveReply? && a.dbOk && a.id in y.sessions && y.sessions[a.id].stage.Replied?)
  }

  lemma QuietSessionStep(y: Server, a: Action, s: Session)
    requires Quiet(y, a) && OfSession(a) && a.id in y.sessions && y.sessions[a.id] == s
    ensures var t := SessionStep(y, a, s);
            && t.store == y.store && a.id in t.sessions && t.sessions == y.sessions[a.id := t.sessions[a.id]]
            && t.author == y.author
            && t.sessions[a.id].userId == s.userId
            && forall c :: Open(t.sessions[a.id], c) == Open(s, c)
  {
    hide Build, Log;
  }

  lemma QuietKeepsLog(y: Server, a: Action, chatId: nat)
    requires Quiet(y, a)
    ensures Step(y, a).store.messages == y.store.messages
    ensures OpenIn(Step(y, a), chatId) == OpenIn(y, chatId)
  {
    hide SessionStep;
    match a
    case Idle =>
    case NewChat(_, _, _) =>
    case Begin(_, _, _, _, _, _) =>
    case _ =>
      if a.id in y.sessions {
        QuietSessionStep(y, a, y.sessions[a.id]);
      }
  }

  lemma StepKeepsBalance(y: Server, a: Action, chatId: nat)
    requires Inv(y) && Balanced(y, chatId)
    ensures Balanced(Step(y, a), chatId)
  {
    hide Inv, Balanced, SessionStep;
    if Quiet(y, a) {
      QuietKeepsLog(y, a, chatId);
      BalanceDepends(y, Step(y, a), chatId);
    } else if a.SaveUser? {
      SaveUserKeepsBalance(y, a.id, y.sessions[a.id], chatId);
    } else {
      SaveReplyKeepsBalance(y, a.id, y.sessions[a.id], chatId);
    }
  }

  lemma BalanceDepends(y: Server, t: Server, chatId: nat)
    requires Balanced(y, chatId) && t.store.messages == y.store.messages && OpenIn(t, chatId) == OpenIn(y, chatId)
    ensures Balanced(t, chatId)
  {
    hide Log, Count, OpenIn, RepliesFollowQuestions;
  }

  lemma {:induction false} RunsStayBalanced(actions: seq<Action>, chatId: nat)
    ensures Balanced(Run(actions), chatId)
  {
    hide Step, Balanced;
    if actions == [] {
      InitiallyBalanced(chatId);
    } else {
      var init := actions[..|actions| - 1];
      RunsKeepInv(init);
      RunsStayBalanced(init, chatId);
      StepKeepsBalance(Run(init), actions[|actions| - 1], chatId);
    }
  }

  lemma InitiallyBalanced(chatId: nat)
    ensures Balanced(INITIAL, chatId)
  {
    assert OpenIn(INITIAL, chatId) == {};
  }

  lemma OpenSessions(y: Server, chatId: nat)
    ensures |OpenIn(y, chatId)| == |InFlight(y, chatId)| + |FailedIn(y, chatId)|
  {
    assert OpenIn(y, chatId) == InFlight(y, chatId) + FailedIn(y, chatId);
  }

  /**
    In every interleaving no prefix of a chat holds more replies than questions, and the questions without a
    reply are those of the sessions in flight and of the sessions that failed after asking.
   */
  lemma RepliesMatchQuestions(actions: seq<Action>, chatId: nat)
    ensures var y := Run(actions);
            var log := Log(y.store.messages, chatId);
            && RepliesFollowQuestions(log)
            && Count(log, User) == Count(log, Assistant) + |InFlight(y, chatId)| + |FailedIn(y, chatId)|
            && Count(log, User) + Count(log, Assistant) == |log|
  {
    hide Run, Count, Log, RepliesFollowQuestions, OpenIn, InFlight, FailedIn;
    RunsStayBalanced(actions, chatId);
    OpenSessions(Run(actions), chatId);
  }

  // ---- Who wrote what ------------------------------------------------------------------------------

  /** The session that stored `m`. */
  function Author(y: Server, m: Message): Option<Session>
  {
    if m.id in y.author && y.author[m.id] in y.sessions then Some(y.sessions[y.author[m.id]]) else None
  }

  /** A stored reply is whole: its session received all of it, stored it last, and asked before. */
  lemma RepliesAreWhole(actions: seq<Action>, m: Message)
    requires m in Run(actions).store.messages && m.role == Assistant
    ensures var author := Author(Run(actions), m);
            && author.Some? && author.value.stage.Done?
            && m.content == Concat(author.value.chunks)
            && author.value.question.Some? && author.value.question.value in Run(actions).store.messages
            && author.value.question.value.id < m.id
  {
    hide Run, Concat, Build;
    RunsKeepInv(actions);
    assert MessageOk(Run(actions), m);
    assert SessionOk(Run(actions).store, Author(Run(actions), m).value);
  }

  /** A session stores at most one question and one reply; one that failed or still waits stores no part of a reply. */
  lemma OneQuestionOneReply(actions: seq<Action>, m: Message, n: Message)
    requires m in Run(actions).store.messages && n in Run(actions).store.messages
    requires m.id in Run(actions).author && n.id in Run(actions).author
    requires Run(actions).author[m.id] == Run(actions).author[n.id]
    ensures m.role == n.role ==> m == n
    ensures m.role == Assistant ==> Author(Run(actions), m).Some? && Author(Run(actions), m).value.stage.Done?
  {
    hide Run, Concat, Build;
    RunsKeepInv(actions);
    assert MessageOk(Run(actions), m) && MessageOk(Run(actions), n);
    assert SessionOk(Run(actions).store, Author(Run(actions), m).value);
  }

  /** Only the owner of a chat writes to it. */
  lemma OnlyOwnersWrite(actions: seq<Action>, m: Message)
    requires m in Run(actions).store.messages
    ensures m.chatId in Run(actions).store.chats
    ensures Author(Run(actions), m).Some?
    ensures Run(actions).store.chats[m.chatId].userId == Author(Run(actions), m).value.userId
  {
    hide Run, Concat, Build, Log;
    RunsKeepInv(actions);
    assert MessageOk(Run(actions), m);
    assert SessionOk(Run(actions).store, Author(Run(actions), m).value);
  }

  /** The step is taken for this user. */
  predicate ActsFor(y: Server, a: Action, userId: string)
  {
    match a
    case Idle => false
    case NewChat(u, _, _) => u == userId
    case Begin(_, u, _, _, _, _) => u == userId
    case _ => a.id in y.sessions && y.sessions[a.id].userId == userId
  }

  /** A step for one user leaves the chats, logs and sessions of every other user as they were. */
  lemma OthersAreUntouched(actions: seq<Action>, a: Action, userId: string)
    requires !ActsFor(Run(actions), a, userId)
    ensures var y, t := Run(actions), Step(Run(actions), a);
            && (forall c | c in y.store.chats && y.store.chats[c].userId == userId ::
                  && c in t.store.chats && t.store.chats[c] == y.store.chats[c]
                  && Log(t.store.messages, c) == Log(y.store.messages, c))
            && (forall c | c in t.store.chats && t.store.chats[c].userId == userId :: c in y.store.chats)
            && (forall id | id in y.sessions && y.sessions[id].userId == userId ::
                  id in t.sessions && t.sessions[id] == y.sessions[id])
  {
    hide Run, Concat, Build, Log, SessionStep, Inv;
    RunsKeepInv(actions);
    var y := Run(actions);
    if a.NewChat? {
      assert Valid(y.store) by { InvIsValid(y); }
    } else if OfSession(a) && a.id in y.sessions {
      SessionIsOk(y, a.id);
      if Quiet(y, a) {
        QuietSessionStep(y, a, y.sessions[a.id]);
      } else {
        SaveStep(y, a);
        forall c | c in y.store.chats && y.store.chats[c].userId == userId
          ensures Log(Step(y, a).store.messages, c) == Log(y.store.messages, c)
        {
          LogAppend(y.store.messages, Step(y, a).store.messages[|y.store.messages|], c);
        }
      }
    }
  }

  lemma InvIsValid(y: Server)
    requires Inv(y)
    ensures Valid(y.store)
  {
  }

  /** A save adds one row to the session's own chat. */
  lemma SaveStep(y: Server, a: Action)
    requires Inv(y) && !Quiet(y, a)
    ensures var t, s := Step(y, a), y.sessions[a.id];
            && |t.store.messages| == |y.store.messages| + 1
            && t.store.messages == y.store.messages + [t.store.messages[|y.store.messages|]]
            && t.store.messages[|y.store.messages|].chatId == s.chatId
            && s.chatId in y.store.chats && y.store.chats[s.chatId].userId == s.userId
            && t.store == Append(y.store, t.store.messages[|y.store.messages|])
            && t.sessions.Keys == y.sessions.Keys
            && forall id | id in y.sessions && id != a.id :: t.sessions[id] == y.sessions[id]
  {
    hide Concat, Log, Inv;
    SessionIsOk(y, a.id);
  }

  // ---- Prompts -------------------------------------------------------------------------------------

  /**
    A prompt says what the chat held when it was read and then the new content: the question itself is never
    repeated, and what other sessions stored in between is missing.
   */
  lemma PromptContents(actions: seq<Action>, id: nat)
    requires id in Run(actions).sessions && Prompted(Run(actions).sessions[id])
    ensures var messages, s := Run(actions).store.messages, Run(actions).sessions[id];
            && s.question.Some? && s.readAt <= s.question.value.id < |messages|
            && s.question.value !in s.history
            && Dialogue(s.prompt) == Dialogue(Repeat(s.history)) + Optional(User, s.content)
            && Log(messages[..s.question.value.id], s.chatId)
               == s.history + Log(messages[s.readAt..s.question.value.id], s.chatId)
  {
    hide Run, Build, Dialogue, Repeat, Optional, Concat, Log;
    RunsKeepInv(actions);
    var y := Run(actions);
    SessionIsOk(y, id);
    var messages, s := y.store.messages, y.sessions[id];
    DialogueOfPrompt(s.systemPrompt, s.history, s.content);
    var q := s.question.value.id;
    assert messages[..q] == messages[..s.readAt] + messages[s.readAt..q];
    LogSplits(messages[..s.readAt], messages[s.readAt..q], s.chatId);
    LogIsHistory(messages[..s.readAt], s.chatId);
  }

  /** The prompt holds everything stored in the chat before the question iff no session came in between. */
  lemma PromptIsComplete(actions: seq<Action>, id: nat)
    requires id in Run(actions).sessions && Prompted(Run(actions).sessions[id])
    ensures var messages, s := Run(actions).store.messages, Run(actions).sessions[id];
            && s.question.Some? && s.readAt <= s.question.value.id < |messages|
            && (s.history == Log(messages[..s.question.value.id], s.chatId) <==>
                forall m | m in messages[s.readAt..s.question.value.id] :: m.chatId != s.chatId)
  {
    hide Run, Build, Dialogue, Repeat, Optional, Concat, Log;
    RunsKeepInv(actions);
    assert Valid(Run(actions).store) by { InvIsValid(Run(actions)); }
    PromptContents(actions, id);
    var messages, s := Run(actions).store.messages, Run(actions).sessions[id];
    var between := messages[s.readAt..s.question.value.id];
    LogIsHistory(between, s.chatId);
    if Log(between, s.chatId) != [] {
      assert Log(between, s.chatId)[0] in Log(between, s.chatId);
    }
  }

  lemma TwoRows(log: seq<Message>, q: Message, a: Message)
    requires forall i, j | 0 <= i < j < |log| :: log[i].createdAt < log[j].createdAt
    requires forall m :: m in log <==> m == q || m == a
    requires q.createdAt < a.createdAt
    ensures log == [q] + [a]
  {
    assert q in log && a in log;
    var i :| 0 <= i < |log| && log[i] == q;
    var j :| 0 <= j < |log| && log[j] == a;
    forall k | 0 <= k < |log|
      ensures log[k] == q || log[k] == a
    {
      assert log[k] in log;
    }
    assert log[0] == log[i] && log[|log| - 1] == log[j] && log[i + 1] == log[j];
  }

  /** Session `first` is done, and nobody else wrote to its chat from its read to the read of `second`. */
  predicate NextTurn(y: Server, first: nat, second: nat)
  {
    && first in y.sessions && second in y.sessions
    && var s1, s2, messages := y.sessions[first], y.sessions[second], y.store.messages;
       && s1.stage.Done? && s1.answer.Some? && s1.answer.value.id < s2.readAt
       && Prompted(s2) && s2.chatId == s1.chatId
       && forall i | s1.readAt <= i < s2.readAt && i < |messages| && messages[i].chatId == s1.chatId ::
            messages[i].id in y.author && y.author[messages[i].id] == first
  }

  lemma TurnBounds(y: Server, first: nat, second: nat)
    requires Inv(y) && NextTurn(y, first, second)
    ensures var messages, s1, s2 := y.store.messages, y.sessions[first], y.sessions[second];
            && s1.question.Some? && s1.answer.Some?
            && s1.readAt <= s1.question.value.id < s1.answer.value.id < s2.readAt <= |messages|
            && messages[s1.question.value.id] == s1.question.value && messages[s1.answer.value.id] == s1.answer.value
            && s1.question.value.chatId == s1.answer.value.chatId == s1.chatId == s2.chatId
  {
    hide Concat, Build, Log, Inv;
    SessionIsOk(y, first);
    SessionIsOk(y, second);
  }

  /** The rows between the two reads are the turn of the first session. */
  lemma OneTurnBetween(y: Server, first: nat, second: nat, m: Message)
    requires Inv(y) && NextTurn(y, first, second)
    requires y.sessions[first].question.Some? && y.sessions[first].readAt <= y.sessions[second].readAt <= |y.store.messages|
    ensures var messages, s1, s2 := y.store.messages, y.sessions[first], y.sessions[second];
            m in messages[s1.readAt..s2.readAt] && m.chatId == s1.chatId
            <==> m == s1.question.value || m == s1.answer.value
  {
    hide Concat, Build, Log, Inv;
    var messages, s1, s2 := y.store.messages, y.sessions[first], y.sessions[second];
    TurnBounds(y, first, second);
    var between := messages[s1.readAt..s2.readAt];
    var q, a := s1.question.value, s1.answer.value;
    assert between[q.id - s1.readAt] == q && between[a.id - s1.readAt] == a;
    if m in between && m.chatId == s1.chatId {
      MessageIsOk(y, m);
    }
  }

  lemma MessageIsOk(y: Server, m: Message)
    requires Inv(y) && m in y.store.messages
    ensures MessageOk(y, m)
  {
  }

  /** What the chat gained from one read to the next. */
  lemma HistoryGrows(y: Server, first: nat, second: nat)
    requires Inv(y) && NextTurn(y, first, second)
    ensures var s1, s2 := y.sessions[first], y.sessions[second];
            s1.question.Some? && s2.history == s1.history + [s1.question.value] + [s1.answer.value]
  {
    hide Concat, Build, Log, Inv, MessageOk;
    var messages, s1, s2 := y.store.messages, y.sessions[first], y.sessions[second];
    InvIsValid(y);
    TurnBounds(y, first, second);
    forall m
      ensures m in messages[s1.readAt..s2.readAt] && m.chatId == s1.chatId <==> m == s1.question.value || m == s1.answer.value
    {
      OneTurnBetween(y, first, second, m);
    }
    LogIsHistory(messages[s1.readAt..s2.readAt], s1.chatId);
    TwoRows(Log(messages[s1.readAt..s2.readAt], s1.chatId), s1.question.value, s1.answer.value);
    assert messages[..s2.readAt] == messages[..s1.readAt] + messages[s1.readAt..s2.readAt];
    LogSplits(messages[..s1.readAt], messages[s1.readAt..s2.readAt], s1.chatId);
    SessionIsOk(y, first);
    SessionIsOk(y, second);
  }

  /**
    The second of two consecutive sends to one chat prompts with the first prompt, then the first reply, then its
    own content, exactly when neither content is empty.
   */
  lemma SerialPromptsGrow(actions: seq<Action>, first: nat, second: nat)
    requires NextTurn(Run(actions), first, second)
    ensures var s1, s2 := Run(actions).sessions[first], Run(actions).sessions[second];
            Dialogue(s2.prompt) == Dialogue(s1.prompt) + [Said(Assistant, s1.answer.value.content)] + [Said(User, s2.content)]
            <==> s1.content != "" && s2.content != ""
  {
    hide Run, Build, Dialogue, Repeat, Optional, Concat, Log, Inv;
    RunsKeepInv(actions);
    var y := Run(actions);
    SessionIsOk(y, first);
    SessionIsOk(y, second);
    HistoryGrows(y, first, second);
    var s1, s2 := y.sessions[first], y.sessions[second];
    PromptGrows(s1.history, s1.systemPrompt, s2.systemPrompt, s1.question.value, s1.answer.value, s2.content);
  }
}
