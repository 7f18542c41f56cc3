/** What is sent to the model: system prompt, past messages, new prompt. */
module Prompts {
  import opened ChatStore
  import opened Positions
  import opened Text

  /** One message as the AI library takes it. */
  datatype Said = Said(role: Role, text: string)

  /** `unicode.IsSpace`. */
  predicate GoSpace(c: char)
  {
    || c in "\t\n\r " || c == '\U{b}' || c == '\U{c}' || c == '\U{85}' || c == '\U{a0}' || c == '\U{1680}'
    || '\U{2000}' <= c <= '\U{200a}' || c == '\U{2028}' || c == '\U{2029}' || c == '\U{202f}' || c == '\U{205f}'
    || c == '\U{3000}'
  }

  /** Stored messages in order; a row with an unknown role is skipped. */
  function Repeat(history: seq<Message>): (said: seq<Said>)
  {
    if history == [] then []
    else
      var m := history[|history| - 1];
      Repeat(history[..|history| - 1]) + if m.role.Other? then [] else [Said(m.role, m.content)]
  }

  function Optional(role: Role, text: string): seq<Said>
  {
    if text != "" then [Said(role, text)] else []
  }

  function Build(systemPrompt: string, history: seq<Message>, prompt: string): (msgs: seq<Said>)
  {
    Optional(System, Trim(systemPrompt, GoSpace)) + Repeat(history) + Optional(User, prompt)
  }

  // ---- What a prompt spells out --------------------------------------------------------------------

  /** First the trimmed system prompt, then every stored message of a known role in order, last the new content. */
  ghost predicate SpellsOut(msgs: seq<Said>, systemPrompt: string, history: seq<Message>, prompt: string)
  {
    var system := Trim(systemPrompt, GoSpace);
    var first, last := if system == "" then 0 else 1, if prompt == "" then 0 else 1;
    exists known | Ascending(known, |history|) ::
      && |msgs| == first + |known| + last
      && (system != "" ==> msgs[0] == Said(System, system))
      && (forall i | 0 <= i < |history| :: i in known <==> !history[i].role.Other?)
      && (forall j | 0 <= j < |known| :: msgs[first + j] == Said(history[known[j]].role, history[known[j]].content))
      && (prompt != "" ==> msgs[|msgs| - 1] == Said(User, prompt))
  }

  lemma {:induction false} RepeatIs(history: seq<Message>) returns (known: seq<nat>)
    ensures Ascending(known, |history|) && |Repeat(history)| == |known|
    ensures forall i | 0 <= i < |history| :: i in known <==> !history[i].role.Other?
    ensures forall j | 0 <= j < |known| :: Repeat(history)[j] == Said(history[known[j]].role, history[known[j]].content)
  {
    if history == [] {
      known := [];
    } else {
      var n := |history| - 1;
      var before := RepeatIs(history[..n]);
      known := before + if history[n].role.Other? then [] else [n];
      KnownMore(history, before, known);
    }
  }

  lemma KnownMore(history: seq<Message>, before: seq<nat>, known: seq<nat>)
    requires history != [] && Ascending(before, |history| - 1)
    requires known == before + if history[|history| - 1].role.Other? then [] else [|history| - 1]
    requires forall i | 0 <= i < |history| - 1 :: i in before <==> !history[..|history| - 1][i].role.Other?
    ensures Ascending(known, |history|)
    ensures forall i | 0 <= i < |history| :: i in known <==> !history[i].role.Other?
  {
    var n := |history| - 1;
    forall i | 0 <= i < |history|
      ensures i in known <==> !history[i].role.Other?
    {
      if i < n {
        assert history[..n][i] == history[i];
      } else {
        assert n !in before;
      }
    }
  }

  lemma BuildSpellsOut(systemPrompt: string, history: seq<Message>, prompt: string)
    ensures SpellsOut(Build(systemPrompt, history, prompt), systemPrompt, history, prompt)
  {
    hide Trim, Repeat;
    var known := RepeatIs(history);
    var system := Trim(systemPrompt, GoSpace);
    var first := if system == "" then 0 else 1;
    var msgs := Build(systemPrompt, history, prompt);
    forall j | 0 <= j < |known|
      ensures msgs[first + j] == Said(history[known[j]].role, history[known[j]].content)
    {
      assert msgs[first + j] == Repeat(history)[j];
    }
  }

  /** `buildMessages`. */
  method BuildMessages(systemPrompt: string, history: seq<Message>, prompt: string) returns (msgs: seq<Said>)
    ensures msgs == Build(systemPrompt, history, prompt)
    ensures SpellsOut(msgs, systemPrompt, history, prompt)
  {
    BuildSpellsOut(systemPrompt, history, prompt);
    hide SpellsOut;
    hide Trim;
    msgs := [];
    var trimmed := Trim(systemPrompt, GoSpace);
    if trimmed != "" {
      msgs := msgs + [Said(System, trimmed)];
    }
    ghost var first := msgs;
    for i := 0 to |history|
      invariant msgs == first + Repeat(history[..i])
    {
      assert history[..i + 1][..i] == history[..i];
      match history[i].role
      case User => msgs := msgs + [Said(User, history[i].content)];
      case Assistant => msgs := msgs + [Said(Assistant, history[i].content)];
      case System => msgs := msgs + [Said(System, history[i].content)];
      case Other(_) =>
    }
    assert history[..|history|] == history;
    if prompt != "" {
      msgs := msgs + [Said(User, prompt)];
    }
  }

  /** The part of a prompt that is not system messages. */
  function Dialogue(msgs: seq<Said>): (said: seq<Said>)
  {
    if msgs == [] then []
    else
      var last := msgs[|msgs| - 1];
      Dialogue(msgs[..|msgs| - 1]) + if last.role == System then [] else [last]
  }

  lemma {:induction false} DialogueSplits(a: seq<Said>, b: seq<Said>)
    ensures Dialogue(a + b) == Dialogue(a) + Dialogue(b)
  {
    if b == [] {
      assert a + b == a;
    } else {
      var n := |b| - 1;
      assert (a + b)[..|a + b| - 1] == a + b[..n];
      DialogueSplits(a, b[..n]);
    }
  }

  lemma DialogueOfOptional(role: Role, text: string)
    ensures Dialogue(Optional(role, text)) == if role == System then [] else Optional(role, text)
  {
    assert Dialogue([]) == [];
    assert [Said(role, text)][..0] == [];
  }

  /** The dialogue of a prompt: what was said before, then the new content if there is any. */
  lemma DialogueOfPrompt(systemPrompt: string, history: seq<Message>, prompt: string)
    ensures Dialogue(Build(systemPrompt, history, prompt)) == Dialogue(Repeat(history)) + Optional(User, prompt)
  {
    hide Trim, Optional, Dialogue, Repeat;
    var system := Optional(System, Trim(systemPrompt, GoSpace));
    DialogueSplits(system + Repeat(history), Optional(User, prompt));
    DialogueSplits(system, Repeat(history));
    DialogueOfOptional(System, Trim(systemPrompt, GoSpace));
    DialogueOfOptional(User, prompt);
  }

  /** The system messages of a prompt. */
  function Instructions(msgs: seq<Said>): (said: seq<Said>)
  {
    if msgs == [] then []
    else
      var last := msgs[|msgs| - 1];
      Instructions(msgs[..|msgs| - 1]) + if last.role == System then [last] else []
  }

  lemma {:induction false} InstructionsSplits(a: seq<Said>, b: seq<Said>)
    ensures Instructions(a + b) == Instructions(a) + Instructions(b)
  {
    if b == [] {
      assert a + b == a;
    } else {
      var n := |b| - 1;
      assert (a + b)[..|a + b| - 1] == a + b[..n];
      InstructionsSplits(a, b[..n]);
    }
  }

  lemma InstructionsOfOptional(role: Role, text: string)
    ensures Instructions(Optional(role, text)) == if role == System then Optional(role, text) else []
  {
    assert Instructions([]) == [];
    assert [Said(role, text)][..0] == [];
  }

  /** The instructions of a prompt: the trimmed system prompt if there is one, then the stored system messages. */
  lemma InstructionsOfPrompt(systemPrompt: string, history: seq<Message>, prompt: string)
    ensures Instructions(Build(systemPrompt, history, prompt))
            == Optional(System, Trim(systemPrompt, GoSpace)) + Instructions(Repeat(history))
  {
    hide Trim, Optional, Instructions, Repeat;
    var system := Optional(System, Trim(systemPrompt, GoSpace));
    InstructionsSplits(system + Repeat(history), Optional(User, prompt));
    InstructionsSplits(system, Repeat(history));
    InstructionsOfOptional(System, Trim(systemPrompt, GoSpace));
    InstructionsOfOptional(User, prompt);
  }

  lemma {:induction false} RepeatSplits(a: seq<Message>, b: seq<Message>)
    ensures Repeat(a + b) == Repeat(a) + Repeat(b)
  {
    if b == [] {
      assert a + b == a;
    } else {
      var n := |b| - 1;
      assert (a + b)[..|a + b| - 1] == a + b[..n];
      RepeatSplits(a, b[..n]);
    }
  }

  /** A question stored and answered adds exactly the two. */
  lemma DialogueOfTurn(history: seq<Message>, question: Message, answer: Message)
    requires question.role == User && answer.role == Assistant
    ensures Dialogue(Repeat(history + [question] + [answer]))
            == Dialogue(Repeat(history)) + [Said(User, question.content)] + [Said(Assistant, answer.content)]
  {
    var q, a := Said(User, question.content), Said(Assistant, answer.content);
    RepeatSplits(history + [question], [answer]);
    RepeatSplits(history, [question]);
    assert [question][..0] == [] && [answer][..0] == [];
    assert Repeat([question]) == [q] && Repeat([answer]) == [a];
    DialogueSplits(Repeat(history) + [q], [a]);
    DialogueSplits(Repeat(history), [q]);
    assert [q][..0] == [] && [a][..0] == [];
  }

  /**
    Across two consecutive sends of one chat the dialogue grows by the reply and the new content,
    exactly when neither content is empty.
   */
  lemma PromptGrows(history: seq<Message>, sys1: string, sys2: string, question: Message, answer: Message, next: string)
    requires question.role == User && answer.role == Assistant
    ensures var prompt1 := Build(sys1, history, question.content);
            var prompt2 := Build(sys2, history + [question] + [answer], next);
            Dialogue(prompt2) == Dialogue(prompt1) + [Said(Assistant, answer.content)] + [Said(User, next)]
            <==> question.content != "" && next != ""
  {
    hide Build, Dialogue, Repeat;
    DialogueOfPrompt(sys1, history, question.content);
    DialogueOfPrompt(sys2, history + [question] + [answer], next);
    DialogueOfTurn(history, question, answer);
    var before := Dialogue(Repeat(history));
    var q, a, n := Said(User, question.content), Said(Assistant, answer.content), Said(User, next);
    var grown := Dialogue(Build(sys2, history + [question] + [answer], next));
    assert grown == before + [q] + [a] + Optional(User, next);
    if question.content == "" && next == "" {
      assert grown[|before| + 1] == a && (before + [a] + [n])[|before| + 1] == n;
    }
  }
}
