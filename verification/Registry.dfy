/**
  The model registry: which entries of a provider's response become models, and how. A response is the
  decoded body of a successful call, or nothing when the call failed.
 */
module Registry {
  import opened GoBytes
  import opened Positions
  import opened Wrappers

  type Provider = string

  const OPENROUTER: Provider := "openrouter"
  const OPENAI: Provider := "openai"
  const ANTHROPIC: Provider := "anthropic"
  const GOOGLE: Provider := "google"

  predicate IsValid(p: Provider)
  {
    p == OPENROUTER || p == OPENAI || p == ANTHROPIC || p == GOOGLE
  }

  datatype AIModel = AIModel(id: string, name: string, provider: Provider, description: string, contextLen: int)

  datatype OpenRouterEntry = OpenRouterEntry(id: string, name: string, description: string, contextLength: int)
  datatype OpenAIEntry = OpenAIEntry(id: string)
  datatype AnthropicEntry = AnthropicEntry(id: string, displayName: string)
  datatype GoogleEntry =
    GoogleEntry(name: string, displayName: string, description: string, inputTokenLimit: int, methods: seq<string>)

  /** What each provider answers to each API key. */
  datatype Http = Http(
    openRouter: Bytes -> Option<seq<OpenRouterEntry>>,
    openAI: Bytes -> Option<seq<OpenAIEntry>>,
    anthropic: Bytes -> Option<seq<AnthropicEntry>>,
    google: Bytes -> Option<seq<GoogleEntry>>)

  // ---- One entry -----------------------------------------------------------------------------------

  function OrElse(s: string, otherwise: string): string
  {
    if s == "" then otherwise else s
  }

  function FromOpenRouter(e: OpenRouterEntry): Option<AIModel>
  {
    Some(AIModel(e.id, OrElse(e.name, e.id), OPENROUTER, e.description, e.contextLength))
  }

  predicate ChatModel(id: string)
  {
    "gpt-" <= id || "o1" <= id || "o3" <= id || "chatgpt-" <= id
  }

  function FromOpenAI(e: OpenAIEntry): Option<AIModel>
  {
    if ChatModel(e.id) then Some(AIModel(e.id, e.id, OPENAI, "", 0)) else None
  }

  function FromAnthropic(e: AnthropicEntry): Option<AIModel>
  {
    Some(AIModel(e.id, OrElse(e.displayName, e.id), ANTHROPIC, "", 0))
  }

  const GENERATE: string := "generateContent"

  function TrimPrefix(s: string, prefix: string): string
  {
    if prefix <= s then s[|prefix|..] else s
  }

  lemma TrimPrefixIs(s: string, prefix: string)
    ensures if prefix <= s then s == prefix + TrimPrefix(s, prefix) else s == TrimPrefix(s, prefix)
  {
  }

  function FromGoogle(e: GoogleEntry): Option<AIModel>
  {
    var cleanId := TrimPrefix(e.name, "models/");
    if GENERATE in e.methods
    then Some(AIModel(cleanId, OrElse(e.displayName, cleanId), GOOGLE, e.description, e.inputTokenLimit))
    else None
  }

  // ---- Filter and map ------------------------------------------------------------------------------

  function FilterMap<A>(f: A -> Option<AIModel>, entries: seq<A>): (models: seq<AIModel>)
  {
    if entries == [] then []
    else
      var before := FilterMap(f, entries[..|entries| - 1]);
      match f(entries[|entries| - 1])
      case Some(m) => before + [m]
      case None => before
  }

  /** The positions of the entries that are kept. */
  function Kept<A>(f: A -> Option<AIModel>, entries: seq<A>): (positions: seq<nat>)
    ensures forall j | 0 <= j < |positions| :: positions[j] < |entries|
  {
    if entries == [] then []
    else
      var n := |entries| - 1;
      Kept(f, entries[..n]) + if f(entries[n]).Some? then [n] else []
  }

  lemma {:induction false} KeptAreThoseMapped<A>(f: A -> Option<AIModel>, entries: seq<A>, i: nat)
    requires i < |entries|
    ensures f(entries[i]).Some? <==> i in Kept(f, entries)
  {
    var n := |entries| - 1;
    if i == n {
    } else {
      assert entries[..n][i] == entries[i];
      KeptAreThoseMapped(f, entries[..n], i);
    }
  }

  lemma {:induction false} KeptGiveTheModels<A>(f: A -> Option<AIModel>, entries: seq<A>)
    ensures |FilterMap(f, entries)| == |Kept(f, entries)|
    ensures forall j | 0 <= j < |Kept(f, entries)| :: f(entries[Kept(f, entries)[j]]) == Some(FilterMap(f, entries)[j])
  {
    if entries == [] {
    } else {
      KeptGiveTheModels(f, entries[..|entries| - 1]);
    }
  }

  lemma {:induction false} KeptInOrder<A>(f: A -> Option<AIModel>, entries: seq<A>)
    ensures forall i, j | 0 <= i < j < |Kept(f, entries)| :: Kept(f, entries)[i] < Kept(f, entries)[j]
  {
    if entries == [] {
    } else {
      KeptInOrder(f, entries[..|entries| - 1]);
    }
  }

  /** Every kept entry gives its model, no other does, and the order stays. */
  lemma {:induction false} FilterMapKeepsOrder<A>(f: A -> Option<AIModel>, entries: seq<A>)
    ensures |FilterMap(f, entries)| == |Kept(f, entries)|
    ensures forall j | 0 <= j < |Kept(f, entries)| :: f(entries[Kept(f, entries)[j]]) == Some(FilterMap(f, entries)[j])
    ensures forall i, j | 0 <= i < j < |Kept(f, entries)| :: Kept(f, entries)[i] < Kept(f, entries)[j]
    ensures forall i: nat | i < |entries| :: f(entries[i]).Some? <==> i in Kept(f, entries)
  {
    KeptGiveTheModels(f, entries);
    KeptInOrder(f, entries);
    hide FilterMap, Kept;
    forall i: nat | i < |entries|
      ensures f(entries[i]).Some? <==> i in Kept(f, entries)
    {
      KeptAreThoseMapped(f, entries, i);
    }
  }

  lemma {:induction false} KeepsAll<A>(f: A -> Option<AIModel>, entries: seq<A>)
    requires forall e | e in entries :: f(e).Some?
    ensures |FilterMap(f, entries)| == |entries|
    ensures forall i | 0 <= i < |entries| :: f(entries[i]) == Some(FilterMap(f, entries)[i])
  {
    if entries == [] {
    } else {
      assert entries[|entries| - 1] in entries;
      KeepsAll(f, entries[..|entries| - 1]);
    }
  }

  // ---- What the lists hold -------------------------------------------------------------------------

  /** Every entry, with its id for a missing name. */
  predicate OpenRouterList(data: seq<OpenRouterEntry>, models: seq<AIModel>)
  {
    && |models| == |data|
    && forall i | 0 <= i < |data| ::
         models[i] == AIModel(data[i].id, if data[i].name != "" then data[i].name else data[i].id, "openrouter",
                              data[i].description, data[i].contextLength)
  }

  predicate AnthropicList(data: seq<AnthropicEntry>, models: seq<AIModel>)
  {
    && |models| == |data|
    && forall i | 0 <= i < |data| ::
         models[i] == AIModel(data[i].id, if data[i].displayName != "" then data[i].displayName else data[i].id,
                              "anthropic", "", 0)
  }

  /** The entries whose id starts in one of four ways, in order. */
  ghost predicate OpenAIList(data: seq<OpenAIEntry>, models: seq<AIModel>)
  {
    exists positions | Ascending(positions, |data|) ::
      && |positions| == |models|
      && (forall i | 0 <= i < |data| :: i in positions <==>
            "gpt-" <= data[i].id || "o1" <= data[i].id || "o3" <= data[i].id || "chatgpt-" <= data[i].id)
      && (forall j | 0 <= j < |models| ::
            models[j] == AIModel(data[positions[j]].id, data[positions[j]].id, "openai", "", 0))
  }

  /** The model is the entry's: its id is the name without the prefix, if it has one. */
  predicate GoogleModel(e: GoogleEntry, m: AIModel)
  {
    && (e.name == "models/" + m.id || (e.name == m.id && !("models/" <= e.name)))
    && m.name == (if e.displayName != "" then e.displayName else m.id)
    && m.provider == "google" && m.description == e.description && m.contextLen == e.inputTokenLimit
  }

  /** The entries that can generate, in order. */
  ghost predicate GoogleList(data: seq<GoogleEntry>, models: seq<AIModel>)
  {
    exists positions | Ascending(positions, |data|) ::
      && |positions| == |models|
      && (forall i | 0 <= i < |data| :: i in positions <==> "generateContent" in data[i].methods)
      && (forall j | 0 <= j < |models| :: GoogleModel(data[positions[j]], models[j]))
  }

  lemma OpenAIIs(data: seq<OpenAIEntry>)
    ensures OpenAIList(data, FilterMap(FromOpenAI, data))
  {
    FilterMapKeepsOrder(FromOpenAI, data);
    hide FilterMap, Kept;
    var positions := Kept(FromOpenAI, data);
    assert Ascending(positions, |data|);
    forall i | 0 <= i < |data|
      ensures i in positions <==>
              "gpt-" <= data[i].id || "o1" <= data[i].id || "o3" <= data[i].id || "chatgpt-" <= data[i].id
    {
      assert FromOpenAI(data[i]).Some? <==> i in positions;
    }
  }

  lemma GoogleEntryIs(e: GoogleEntry)
    ensures FromGoogle(e).Some? <==> "generateContent" in e.methods
    ensures FromGoogle(e).Some? ==> GoogleModel(e, FromGoogle(e).value)
  {
    TrimPrefixIs(e.name, "models/");
  }

  lemma GoogleIs(data: seq<GoogleEntry>)
    ensures GoogleList(data, FilterMap(FromGoogle, data))
  {
    FilterMapKeepsOrder(FromGoogle, data);
    hide FilterMap, Kept, FromGoogle, GoogleModel;
    var positions, models := Kept(FromGoogle, data), FilterMap(FromGoogle, data);
    assert Ascending(positions, |data|);
    forall i | 0 <= i < |data|
      ensures i in positions <==> "generateContent" in data[i].methods
    {
      GoogleEntryIs(data[i]);
    }
    forall j | 0 <= j < |models|
      ensures GoogleModel(data[positions[j]], models[j])
    {
      GoogleEntryIs(data[positions[j]]);
    }
  }

  // ---- The loops over a response -------------------------------------------------------------------

  method OpenRouterModels(data: seq<OpenRouterEntry>) returns (models: seq<AIModel>)
    ensures models == FilterMap(FromOpenRouter, data)
    ensures OpenRouterList(data, models)
  {
    KeepsAll(FromOpenRouter, data);
    models := [];
    for i := 0 to |data|
      invariant models == FilterMap(FromOpenRouter, data[..i])
    {
      assert data[..i + 1][..i] == data[..i];
      var name := data[i].name;
      if name == "" { name := data[i].id; }
      models := models + [AIModel(data[i].id, name, OPENROUTER, data[i].description, data[i].contextLength)];
    }
    assert data[..|data|] == data;
  }

  method OpenAIModels(data: seq<OpenAIEntry>) returns (models: seq<AIModel>)
    ensures models == FilterMap(FromOpenAI, data)
    ensures OpenAIList(data, models)
  {
    OpenAIIs(data);
    hide OpenAIList;
    models := [];
    for i := 0 to |data|
      invariant models == FilterMap(FromOpenAI, data[..i])
    {
      assert data[..i + 1][..i] == data[..i];
      var id := data[i].id;
      if "gpt-" <= id || "o1" <= id || "o3" <= id || "chatgpt-" <= id {
        models := models + [AIModel(data[i].id, data[i].id, OPENAI, "", 0)];
      }
    }
    assert data[..|data|] == data;
  }

  method AnthropicModels(data: seq<AnthropicEntry>) returns (models: seq<AIModel>)
    ensures models == FilterMap(FromAnthropic, data)
    ensures AnthropicList(data, models)
  {
    KeepsAll(FromAnthropic, data);
    models := [];
    for i := 0 to |data|
      invariant models == FilterMap(FromAnthropic, data[..i])
    {
      assert data[..i + 1][..i] == data[..i];
      var name := data[i].displayName;
      if name == "" { name := data[i].id; }
      models := models + [AIModel(data[i].id, name, ANTHROPIC, "", 0)];
    }
    assert data[..|data|] == data;
  }

  /** The inner loop: does any method name say `generateContent`? */
  method SupportsGenerate(methods: seq<string>) returns (found: bool)
    ensures found <==> "generateContent" in methods
  {
    found := false;
    for i := 0 to |methods|
      invariant !found && GENERATE !in methods[..i]
    {
      if methods[i] == GENERATE {
        found := true;
        break;
      }
    }
  }

  method GoogleModels(data: seq<GoogleEntry>) returns (models: seq<AIModel>)
    ensures models == FilterMap(FromGoogle, data)
    ensures GoogleList(data, models)
  {
    GoogleIs(data);
    hide GoogleList;
    models := [];
    for i := 0 to |data|
      invariant models == FilterMap(FromGoogle, data[..i])
    {
      assert data[..i + 1][..i] == data[..i];
      var supportsGenerate := SupportsGenerate(data[i].methods);
      if supportsGenerate {
        var cleanId := TrimPrefix(data[i].name, "models/");
        var displayName := data[i].displayName;
        if displayName == "" { displayName := cleanId; }
        models := models + [AIModel(cleanId, displayName, GOOGLE, data[i].description, data[i].inputTokenLimit)];
      }
    }
    assert data[..|data|] == data;
  }

  // ---- Dispatch ------------------------------------------------------------------------------------

  function Mapped<A>(f: A -> Option<AIModel>, response: Option<seq<A>>): Option<seq<AIModel>>
  {
    match response
    case Some(data) => Some(FilterMap(f, data))
    case None => None
  }

  /** The models a key gives access to, or nothing if the key is blank, the provider unknown or the call fails. */
  function Fetch(http: Http, provider: Provider, apiKey: Bytes): (models: Option<seq<AIModel>>)
  {
    var key := TrimSpace(apiKey);
    if key == [] then None
    else if provider == OPENROUTER then Mapped(FromOpenRouter, http.openRouter(key))
    else if provider == OPENAI then Mapped(FromOpenAI, http.openAI(key))
    else if provider == ANTHROPIC then Mapped(FromAnthropic, http.anthropic(key))
    else if provider == GOOGLE then Mapped(FromGoogle, http.google(key))
    else None
  }

  /** `models` is made of what the provider, and no other, answers to the key. */
  ghost predicate ListsAnswer(http: Http, provider: Provider, key: Bytes, models: seq<AIModel>)
  {
    || (provider == "openrouter" && http.openRouter(key).Some? && OpenRouterList(http.openRouter(key).value, models))
    || (provider == "openai" && http.openAI(key).Some? && OpenAIList(http.openAI(key).value, models))
    || (provider == "anthropic" && http.anthropic(key).Some? && AnthropicList(http.anthropic(key).value, models))
    || (provider == "google" && http.google(key).Some? && GoogleList(http.google(key).value, models))
  }

  /** The provider does not answer, or there is none of this name. */
  predicate NoAnswer(http: Http, provider: Provider, key: Bytes)
  {
    && (provider == "openrouter" ==> http.openRouter(key).None?)
    && (provider == "openai" ==> http.openAI(key).None?)
    && (provider == "anthropic" ==> http.anthropic(key).None?)
    && (provider == "google" ==> http.google(key).None?)
  }

  /** Fetching gives what the provider answers to the trimmed key; it fails for a blank key and without an answer. */
  lemma FetchIsAnswered(http: Http, provider: Provider, apiKey: Bytes)
    ensures var key, fetched := TrimSpace(apiKey), Fetch(http, provider, apiKey);
            && (fetched.None? <==> key == [] || NoAnswer(http, provider, key))
            && (fetched.Some? ==> ListsAnswer(http, provider, key, fetched.value))
  {
    hide TrimSpace, FilterMap, OpenAIList, GoogleList;
    var key := TrimSpace(apiKey);
    if provider == OPENROUTER && http.openRouter(key).Some? {
      KeepsAll(FromOpenRouter, http.openRouter(key).value);
    } else if provider == OPENAI && http.openAI(key).Some? {
      OpenAIIs(http.openAI(key).value);
    } else if provider == ANTHROPIC && http.anthropic(key).Some? {
      KeepsAll(FromAnthropic, http.anthropic(key).value);
    } else if provider == GOOGLE && http.google(key).Some? {
      GoogleIs(http.google(key).value);
    }
  }

  /** `FetchModels`, into a slice of its own; null stands for the error. */
  method FetchModels(http: Http, provider: Provider, apiKey: Bytes) returns (models: array?<AIModel>)
    ensures models == null <==> Fetch(http, provider, apiKey).None?
    ensures models != null ==> fresh(models) && models[..] == Fetch(http, provider, apiKey).value
    ensures models != null ==> ListsAnswer(http, provider, TrimSpace(apiKey), models[..])
    ensures models == null <==> TrimSpace(apiKey) == [] || NoAnswer(http, provider, TrimSpace(apiKey))
  {
    hide TrimSpace, FilterMap, OpenRouterList, OpenAIList, AnthropicList, GoogleList;
    var key := TrimSpace(apiKey);
    if key == [] { return null; }
    var list: seq<AIModel>;
    if provider == OPENROUTER {
      var r := http.openRouter(key);
      if r == None { return null; }
      list := OpenRouterModels(r.value);
    } else if provider == OPENAI {
      var r := http.openAI(key);
      if r == None { return null; }
      list := OpenAIModels(r.value);
    } else if provider == ANTHROPIC {
      var r := http.anthropic(key);
      if r == None { return null; }
      list := AnthropicModels(r.value);
    } else if provider == GOOGLE {
      var r := http.google(key);
      if r == None { return null; }
      list := GoogleModels(r.value);
    } else {
      return null;
    }
    models := new AIModel[|list|](i requires 0 <= i < |list| => list[i]);
    assert models[..] == list;
  }

  predicate Tagged(models: seq<AIModel>, p: Provider)
  {
    forall m | m in models :: m.provider == p
  }

  lemma {:induction false} FilterMapTags<A>(f: A -> Option<AIModel>, entries: seq<A>, p: Provider)
    requires forall e | e in entries :: f(e).Some? ==> f(e).value.provider == p
    ensures Tagged(FilterMap(f, entries), p)
  {
    if entries == [] {
    } else {
      FilterMapTags(f, entries[..|entries| - 1], p);
    }
  }

  /** A provider's models carry that provider. */
  lemma FetchTags(http: Http, provider: Provider, apiKey: Bytes)
    ensures Fetch(http, provider, apiKey).Some? ==> Tagged(Fetch(http, provider, apiKey).value, provider)
    ensures Fetch(http, provider, apiKey).Some? ==> IsValid(provider)
  {
    hide TrimSpace, FilterMap, Tagged;
    var key := TrimSpace(apiKey);
    if http.openRouter(key).Some? { FilterMapTags(FromOpenRouter, http.openRouter(key).value, OPENROUTER); }
    if http.openAI(key).Some? { FilterMapTags(FromOpenAI, http.openAI(key).value, OPENAI); }
    if http.anthropic(key).Some? { FilterMapTags(FromAnthropic, http.anthropic(key).value, ANTHROPIC); }
    if http.google(key).Some? { FilterMapTags(FromGoogle, http.google(key).value, GOOGLE); }
  }

  /** White space around a key does not matter to a provider. */
  lemma FetchTrims(http: Http, provider: Provider, apiKey: Bytes)
    ensures Fetch(http, provider, TrimSpace(apiKey)) == Fetch(http, provider, apiKey)
  {
    hide TrimSpace, Mapped, LeadingSpace, TrailingSpace;
    TrimSpaceTwice(apiKey);
  }
}
