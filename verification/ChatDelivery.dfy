/** What browsers show of the replies of all sessions, whatever the interleaving on the server. */
module ChatDelivery {
  import opened ChatLogs
  import opened ChatSessions
  import opened ChatStore
  import opened ChatStream
  import opened Html
  import opened Prompts
  import opened Sse
  import opened Text
  import opened Wrappers

  /** What the bubble shows after the network reads `parts` of a response. */
  function Bubble(parts: seq<string>): (html: string)
  {
    Render(InterpretAll(Receive(parts).events))
  }

  /**
    In every interleaving, a session that is done has its reply in the database, and however its stream was cut
    into reads the bubble shows exactly that reply.
   */
  lemma DoneReplyIsShown(actions: seq<Action>, id: nat, json: Message -> string)
    requires id in Run(actions).sessions && Run(actions).sessions[id].stage.Done?
    requires forall m :: JsonText(json(m))
    ensures var s := Run(actions).sessions[id];
            && s.question.Some? && s.answer.Some? && s.answer.value in Run(actions).store.messages
            && forall parts | Concat(parts) == PrintFrames(Emitted(s.question.value, s.chunks, Saved(s.answer.value), json)) ::
                 Bubble(parts) == EscapeHtml(s.answer.value.content)
  {
    hide Run, Concat, Build, Log, EscapeHtml, Render, InterpretAll, Whole, Receive, PrintFrames, Emitted, EndHtml, JsonText, Inv;
    RunsKeepInv(actions);
    SessionIsOk(Run(actions), id);
    var s := Run(actions).sessions[id];
    var e := Saved(s.answer.value);
    forall parts | Concat(parts) == PrintFrames(Emitted(s.question.value, s.chunks, e, json))
      ensures Bubble(parts) == EscapeHtml(s.answer.value.content)
    {
      ChunkingIndependence(parts);
      EndToEnd(s.question.value, s.chunks, e, json, parts);
      SavedAddsNothing(e, EscapeHtml(Concat(s.chunks)));
    }
  }

  /** How the stream of a failed session ends; without a reply there is no stream. */
  function EndingOf(cause: Cause): Option<Ending>
  {
    match cause
    case NoReply => None
    case BrokenOff => Some(Interrupted)
    case NotStored => Some(NotSaved)
  }

  /**
    In every interleaving, a session that failed has stored its question and nothing else. If it printed a
    stream, the bubble shows the chunks that came and why the session failed.
   */
  lemma FailedReplyIsNotStored(actions: seq<Action>, id: nat, json: Message -> string)
    requires id in Run(actions).sessions && Run(actions).sessions[id].stage.Failed?
    requires forall m :: JsonText(json(m))
    ensures var y, s := Run(actions), Run(actions).sessions[id];
            var e := EndingOf(s.stage.cause);
            && s.question.Some? && s.question.value in y.store.messages
            && (forall m | m in y.store.messages && m.id in y.author && y.author[m.id] == id :: m == s.question.value)
            && (e.Some? ==>
                  forall parts | Concat(parts) == PrintFrames(Emitted(s.question.value, s.chunks, e.value, json)) ::
                    Bubble(parts) == EscapeHtml(Concat(s.chunks)) + EndHtml(e.value))
  {
    hide Run, Concat, Build, Log, EscapeHtml, Render, InterpretAll, Whole, Receive, PrintFrames, Emitted, EndHtml, JsonText, Inv;
    RunsKeepInv(actions);
    SessionIsOk(Run(actions), id);
    var y, s := Run(actions), Run(actions).sessions[id];
    forall m | m in y.store.messages && m.id in y.author && y.author[m.id] == id
      ensures m == s.question.value
    {
      MessageIsOk(y, m);
    }
    var e := EndingOf(s.stage.cause);
    if e.Some? {
      forall parts | Concat(parts) == PrintFrames(Emitted(s.question.value, s.chunks, e.value, json))
        ensures Bubble(parts) == EscapeHtml(Concat(s.chunks)) + EndHtml(e.value)
      {
        ChunkingIndependence(parts);
        EndToEnd(s.question.value, s.chunks, e.value, json, parts);
      }
    }
  }
}
