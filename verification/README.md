# Chat streaming, model cache, chat log and credentials

A Dafny model of the four stateful parts of a Gin service that lets signed-in users register API keys of
AI providers, list the models those keys give access to, and chat with them over Server-Sent Events.

- **Streaming.** The handler prints a `user_message` event, one event per chunk and an ending, and stores the
  concatenated text only if the stream ended well. The browser appends network reads to a buffer, splits it on
  blank lines, keeps the last piece, reads `event:` and `data:` lines and appends escaped text to a bubble.
  `Html`, `Json`, `Sse`, `EventStream` and `ChatStream` prove each layer and then the whole chain: a reply that
  arrives whole is shown exactly as the database holds it, however the network cuts it. A read that fails, and a
  response that ends early, have their own results.
- **Model cache and API keys.** `MemoryCaches.MemoryCache` keeps slices in the heap under string keys and
  refines a map by user and provider (`ModelCache`). `Accounts` and `AccountRuns` serve requests one after the
  other; `CacheRaces` lets the steps of any number of requests interleave over the same table and cache,
  `CacheAnswers` proves what overlapping requests find, answer and see of each other, and `CacheSerial` shows that
  the serial runs are among the interleaved ones. `Services` has the methods of the two services, each
  proved against the step it takes.
- **Chat log.** `ChatStore` has the tables and the repository, `Prompts` the message list sent to a provider,
  `ChatServices` the service methods. `ChatSessions` is a machine in which every repository or provider call of
  any number of sessions is a step of its own; `ChatLogs` proves what every reachable log and every prompt
  satisfies, and `ChatDelivery` what the browser shows of it; `ChatTurns` shows that the service methods are runs
  of that machine, and what prompts say after any number of turns. `ChatExamples` has the runs behind two of the
  remarks below.
- **Credentials.** `Base64` (section 4 of RFC 4648) and `Hex` (section 8 of RFC 4648) are concrete; in `Cipher`
  AES-GCM is an abstract seal and open pair of which only the round-trip law is used.

## Assumptions

- Clocks do not go back, and messages are created at strictly increasing times.
- A repository call or transaction is atomic, and one that fails changes nothing. Whether it fails is an argument.
- What providers answer, random bytes, the stored profile and the way the network cuts a text are arguments too.
- Text in the streaming and chat parts is a sequence of code points, and decoding of UTF-8 in the browser is
  trusted. API keys and ciphertexts are byte strings.
- An event is printed as `event:NAME`, `data:PAYLOAD` and a blank line. The JSON of a stored message is any text
  between braces without control characters; the JSON of a chunk or an error is concrete (section 7 of RFC 8259).

## Where the code does less than one might expect

- The browser keeps only the last `data:` line of an event; the HTML Living Standard joins them. On an event of
  data lines they agree exactly if there is one line (`EventStream.DataLinesDiffer`), which is all the server prints.
- `PurgeUser` also purges users whose id continues the given one with a colon; `ModelCache.PurgedBy` says exactly whom.
- `Set` stores the caller's slice uncopied (`MemoryCaches.OverwriteArgument`); `MemoryCaches.Overwrite` says exactly
  when writing to a slice changes the cache. No operation of the service writes to one that the cache holds.
- A cached answer and a refreshed one differ exactly when a fetch fails while a live, non-empty entry is cached
  (`AccountRuns.CacheAgreesExactly`), and for every user, provider and key they can
  (`AccountRuns.CacheHidesFailedFetch`).
- A listing that waits for its provider while a key is replaced or deleted leaves a stale entry behind
  (`CacheRaces.RaceLeavesStaleEntry`); `CacheRaces.StaleExactlyWhenReplaced` says when an entry is stale.
- When a read of the stream fails, an error message replaces the text shown so far (`ChatStream.ReceiveStream`).
- A prompt lacks what other sessions stored in the chat after its history was read (`ChatLogs.PromptIsComplete`);
  for any two contents there is such a run (`ChatExamples.PromptMissesAnother`).
- Prompts grow turn by turn exactly if no content is empty (`ChatLogs.SerialPromptsGrow`), and do not grow in the
  runs of `ChatExamples.EmptyContentIsLost`. The HTTP handler rejects empty contents, the service does not.
- Base 64 text is accepted with stray newlines and unused bits set (`Base64.ExtraNewlineIsAccepted`,
  `Base64.UnusedBitIsAccepted`); `Base64.OnlyCanonicalIsWritten` says which accepted texts the encoder writes.

## Model

| member | source | states |
|---|---|---|
| Html.SixPassesAreOne | web/index.html:1130-1138 | the six successive global replacements never escape each other's output: together they substitute each character once |
| Html.EscapeHtmlSplits | web/index.html:1130-1138 | escaping a concatenation is concatenating the escaped parts, so chunks may be escaped one by one |
| Html.EscapeTable | web/index.html:1130-1138 | what each of the six characters becomes, anywhere in a text; every other stays |
| Html.PrefixCode | web/index.html:1130-1138 | a text that starts with one code word starts with no other special character's code word |
| Html.UnescapeRecovers | web/index.html:1130-1138 | escaping has a left inverse: every text is recovered from its escaped form |
| Html.EscapedIsInert | web/index.html:1130-1138 | escaped text holds no quote or newline, and angle brackets only as part of `<br>` |
| Json.ParsePrintedObject | internal/handler/chat.go:232-240 | parsing a printed one-member object gives back its name and value, for all strings |
| Json.PrintedIsPrintable | internal/handler/chat.go:232-240 | a printed object holds no control character, so it fits on one `data:` line |
| Json.PlainObject | internal/handler/chat.go:232-240 | names and values without special characters stand between the quotes as they are |
| Json.ShortEscapes | internal/handler/chat.go:232-240 | the two-character escapes of section 7 of RFC 8259 |
| Json.LongEscapes | internal/handler/chat.go:232-240 | all other control characters, the three HTML characters and the two line separators become four hex digits of their number |
| Sse.SplitIsWhole | web/index.html:1075-1076 | splitting on blank lines gives the terminated events and then the unterminated rest |
| Sse.SplitContinues | web/index.html:1073-1076 | text that arrives later never moves an earlier cut: it only continues the rest |
| Sse.RestHasNoBreak | web/index.html:1075-1076 | nothing that is already terminated stays in the buffer |
| Sse.WholeIsUnsplit | web/index.html:1075-1076 | events and rest, joined with blank lines, are the text; no event holds or touches an earlier cut |
| Sse.CutIsUnique | web/index.html:1075-1076 | there is only one way to cut a text so |
| Sse.ChunkingIndependence | web/index.html:1068-1087 | for every partition of a text into reads the append, split and keep-last loop dispatches the events, and keeps the rest, of one split of the whole text |
| Sse.PrintFrameIs | internal/handler/chat.go:225-256 | the text of one event on the wire |
| Sse.LastFieldIs | web/index.html:1081-1086 | a field is the trimmed text after the tag in the last line that starts with it, or the default |
| Sse.ScanLines | web/index.html:1079-1086 | the loop takes type and data each from the trimmed text after `event:` or `data:` in the last line that starts with it, or `message` and nothing |
| Sse.ParsePrinted | internal/handler/chat.go:225-256 | from printed frames the client recovers exactly those frames, and nothing is left over |
| Sse.ParseTruncated | web/index.html:1068-1087 | a text cut anywhere delivers a prefix of the frames, and all of them iff nothing is lost; an unterminated tail is never dispatched |
| EventStream.ClientMatchesStandard | web/index.html:1068-1087 | on printed frames the client dispatches what section 9.2.6 of the HTML Living Standard dispatches |
| EventStream.DataLinesDiffer | web/index.html:1082-1086 | on an event of any number of plain data lines the standard joins the values and the client keeps the last, so they agree iff there is one |
| EventStream.LinesRejoin | web/index.html:1079 | splitting at newlines cuts nothing away and leaves no newline in a line |
| ChatStream.ShowEvent | web/index.html:1088-1102 | one event appends the escaped chunk, the error text, or nothing |
| ChatStream.FragmentTable | web/index.html:1088-1102 | what chunk, error and other events add to the bubble, also when the data does not parse or lacks the member |
| ChatStream.ReadAll | web/index.html:1065-1103 | the bubble and the buffer depend on the text received, not on how it was cut into reads |
| ChatStream.ReceiveStream | web/index.html:1065-1106 | after the last read the bubble shows the events of the text received; if a read fails it shows the error message alone |
| ChatStream.StreamMessage | internal/handler/chat.go:224-256 | the text written for each of the three endings: user message, every chunk in order, and `done` with the stored message or the reason; the reply stored is the concatenation of all chunks, and without a clean end nothing is stored |
| ChatStream.RenderEmitted | web/index.html:1088-1102 | the frames of a stream show the escaped text of all chunks, then the error if there is one |
| ChatStream.EndToEnd | web/index.html:1065-1103 | for every cut of the printed stream the client shows the escaped concatenation of the chunks and the ending, and its buffer is empty |
| ChatStream.StreamedReply | internal/handler/chat.go:224-256 | handler, network and browser together: a saved reply that arrives whole is shown as stored; an early end shows some first chunks, a failed read the error message; without a saved ending nothing is stored |
| ChatStream.CutConnection | web/index.html:1068-1103 | while only the start of a stream has arrived, and for good if the response ends there without an error, the bubble shows the escaped text of some first chunks; the ending shows only when nothing is missing |
| ChatStore.ChatRepository.Create | internal/infra/repository/chat.go:21-30 | adds a row of the user, or changes nothing when the insert fails |
| ChatStore.ChatRepository.GetWithMessages | internal/infra/repository/chat.go:46-58 | succeeds only for the owner; the history is exactly the chat's messages, strictly by creation time |
| ChatStore.ChatRepository.CreateMessage | internal/infra/repository/chat.go:61-81 | row and update time together or neither; nothing else of the chat and no other chat changes |
| ChatStore.AppendKeepsValid | internal/infra/repository/chat.go:61-81 | a new message keeps ids, chat references and the order of creation times |
| ChatStore.LogIsHistory | internal/infra/repository/chat.go:49-51 | a chat's log holds exactly its messages in creation order |
| ChatStore.NewMessageListsFirst | internal/infra/repository/chat.go:33-43 | after a new message its chat heads every list ordered by update time |
| ChatStore.NewMessageKeepsOtherLists | internal/infra/repository/chat.go:33-43 | the lists of all other users stay what they were |
| Prompts.BuildMessages | internal/infra/ai/client.go:66-85 | the messages, one by one: trimmed system prompt if any, every stored row of a known role in order, new content if any |
| Prompts.DialogueOfPrompt | internal/infra/ai/client.go:66-85 | apart from system messages a prompt is the history followed by the new content |
| Prompts.BuildSpellsOut | internal/infra/ai/client.go:66-85 | the same of the message list as a value |
| Prompts.InstructionsOfPrompt | internal/infra/ai/client.go:66-85 | the system messages of a prompt are the trimmed system prompt, if not blank, and then the stored ones |
| Prompts.PromptGrows | internal/infra/ai/client.go:66-85 | with one more stored turn the dialogue grows by the reply and the new content iff no content is empty |
| ChatSessions.RunsKeepInv | internal/service/chat.go:76-199 | in every interleaving: valid tables, ownership of admitted sessions, history as read, question and reply of each session, and an author for every message |
| ChatLogs.RepliesMatchQuestions | internal/service/chat.go:76-199 | in every interleaving no prefix of a chat's log has more assistant than user messages, and the difference is the sessions in flight plus those that failed after asking |
| ChatLogs.RepliesAreWhole | internal/service/chat.go:189-192 | every stored assistant message is the whole text its finished session received, and follows that session's question |
| ChatLogs.OneQuestionOneReply | internal/service/chat.go:76-199 | a session stores at most one question and one reply, and a session that is not done no part of a reply |
| ChatLogs.OnlyOwnersWrite | internal/service/chat.go:90-109 | every message was stored by a session of its chat's owner, although storing checks only the chat id |
| ChatLogs.OthersAreUntouched | internal/service/chat.go:90-109 | a step for one user leaves every other user's chats, logs and sessions as they were |
| ChatLogs.PromptContents | internal/service/chat.go:90-109 | a prompt is the chat's log when it was read and then the content once; what was stored in between is missing |
| ChatLogs.PromptIsComplete | internal/service/chat.go:90-109 | the prompt has everything stored before the question iff no other session wrote to the chat after the read |
| ChatLogs.HistoryGrows | internal/service/chat.go:90-109 | with only one turn in between, the next history is the former one plus that question and reply |
| ChatLogs.SerialPromptsGrow | internal/service/chat.go:139-157 | the second of two consecutive sends prompts with the first prompt, the first reply and its own content iff no content is empty |
| ChatExamples.PromptMissesAnother | internal/service/chat.go:90-109 | for any two contents a run in which a prompt misses the other question, already stored |
| ChatExamples.EmptyContentIsLost | internal/infra/ai/client.go:66-85 | for any two contents of which one is empty a run in which the second prompt does not extend the first |
| ChatDelivery.DoneReplyIsShown | web/index.html:1065-1103 | in every interleaving, of every session that is done and for every cut of its stream, the bubble shows exactly the reply in the database |
| ChatDelivery.FailedReplyIsNotStored | internal/handler/chat.go:237-252 | in every interleaving a session that failed has stored its question and nothing else; if it printed a stream, the bubble shows the chunks that came and why this session failed |
| ChatServices.ChatService.PrepareSessionContext | internal/service/chat.go:76-124 | exactly when the question is stored, with which context, and for each error exactly when it results |
| ChatServices.ChatService.MakeAsk | internal/infra/ai/client.go:29-85 | no request iff key or model is blank; otherwise it has the trimmed model and key, and its messages spell out system prompt, history and new content |
| ChatServices.AskOfAsks | internal/infra/ai/client.go:29-85 | the same of the request as a value |
| ChatServices.ChatService.SendMessage | internal/service/chat.go:127-160 | the store gains nothing, the question, or question and generated reply; success iff both are stored; the provider is asked with profile, history from before the question, and content |
| ChatServices.ChatService.StreamMessage | internal/service/chat.go:163-199 | the question is stored before the stream is opened, and stays when opening fails; the provider is asked as for a send |
| ChatServices.StreamToBrowser | internal/handler/chat.go:203-257 | from request to bubble: after a saved ending the chat has gained question and whole reply, and if all of it arrives the bubble shows exactly that reply; otherwise at most the question is stored |
| ChatTurns.SendIsARun | internal/service/chat.go:127-160 | every outcome of a send is that of a run of the interleaved machine, whenever its two messages are stored: same store, same question and reply, the prompt is what the service asks, and the stage fits |
| ChatTurns.StreamIsARun | internal/service/chat.go:163-199 | the same for a streamed send with any number of chunks and any ending |
| ChatTurns.PromptAfterTurns | internal/service/chat.go:139-157 | after any number of successful sends the next prompt spells out all turns in order and then the new content once |
| ModelCache.CacheKeyInjective | internal/infra/ai/cache.go:49 | different pairs of user and provider never share a cache key, for all user ids |
| ModelCache.PurgedBy | internal/infra/ai/cache.go:81-91 | the prefix purge hits a user's entries iff the id is the given one or continues it with a colon |
| ModelCache.PurgeUserIsExact | internal/infra/ai/cache.go:81-91 | for ids without colons it hits exactly the given user's entries |
| ModelCache.PurgeUserOverreaches | internal/infra/ai/cache.go:81-91 | for every user there is another one it also hits |
| ModelCache.GetAfterRun | internal/infra/ai/cache.go:45-105 | after any timed run of sets, purges and sweeps an answer is that of the last event that stored or removed the pair |
| ModelCache.SweepingIsInvisible | internal/infra/ai/cache.go:93-105 | no answer tells a cache that sweeps from one that never does |
| ModelCache.HitsAreRecent | internal/infra/ai/cache.go:45-70 | every hit was stored for that pair no longer than the time to live ago |
| MemoryCaches.MemoryCache.constructor | internal/infra/ai/cache.go:24-37 | an empty cache; a time to live that is not positive becomes fifteen minutes |
| MemoryCaches.MemoryCache.Get | internal/infra/ai/cache.go:45-58 | the live entry of the pair in a fresh copy, or a miss |
| MemoryCaches.MemoryCache.Set | internal/infra/ai/cache.go:61-70 | stores the caller's own slice with its expiry |
| MemoryCaches.MemoryCache.Purge | internal/infra/ai/cache.go:73-78 | removes the pair's entry and nothing else |
| MemoryCaches.MemoryCache.PurgeUser | internal/infra/ai/cache.go:81-91 | the loop removes exactly the keys with the user's prefix |
| MemoryCaches.MemoryCache.Sweep | internal/infra/ai/cache.go:93-105 | the loop removes exactly the expired entries: none is left and no other goes |
| MemoryCaches.Overwrite | internal/infra/ai/cache.go:55-69 | writing to a slice changes the entries iff the cache holds that slice and the model is another |
| MemoryCaches.OverwriteAnswer | internal/infra/ai/cache.go:55-57 | overwriting a slice that `Get` returned changes no entry and no later answer |
| MemoryCaches.OverwriteArgument | internal/infra/ai/cache.go:66-69 | overwriting a slice given to `Set` does change the entry |
| KeyTable.RowsOfAreTheRows | internal/infra/repository/user_api_key.go:44-53 | a user's list holds exactly that user's rows, strictly by provider |
| KeyTable.UserAPIKeyRepository.Upsert | internal/infra/repository/user_api_key.go:22-27 | one row per user and provider, replaced in place, or no change on failure |
| KeyTable.UserAPIKeyRepository.GetByProvider | internal/infra/repository/user_api_key.go:30-41 | the row, no row, or the failure |
| KeyTable.UserAPIKeyRepository.ListByUserID | internal/infra/repository/user_api_key.go:44-53 | in a table of supported providers, the only ones ever stored: exactly the rows of the user, each once and by provider; or the failure |
| KeyTable.UserAPIKeyRepository.DeleteByProvider | internal/infra/repository/user_api_key.go:56-67 | removes the row; a missing row is an error and no change |
| Registry.FilterMapKeepsOrder | internal/infra/ai/registry.go:92-105 | each model comes from the kept entry at its place, entries keep their order, and none is lost |
| Registry.OpenRouterModels | internal/infra/ai/registry.go:92-105 | the loop keeps every entry; a missing name becomes the id |
| Registry.OpenAIModels | internal/infra/ai/registry.go:137-150 | exactly the entries whose id starts in one of the four ways, in order |
| Registry.AnthropicModels | internal/infra/ai/registry.go:184-195 | the loop over the entries of Anthropic |
| Registry.SupportsGenerate | internal/infra/ai/registry.go:231-258 | the inner loop finds the method name iff it is listed |
| Registry.GoogleModels | internal/infra/ai/registry.go:231-258 | exactly the entries that list `generateContent`, in order; the id is the name without its prefix, and stands in for a missing display name |
| Registry.FetchModels | internal/infra/ai/registry.go:41-59 | an error iff the key is blank or the provider unknown or without answer; otherwise a slice of its own with the models of what that provider answers to the trimmed key |
| Registry.FetchIsAnswered | internal/infra/ai/registry.go:41-59 | the same of fetching as a function |
| Registry.FetchTags | internal/infra/ai/registry.go:41-59 | every model fetched from a provider carries that provider |
| Registry.FetchTrims | internal/infra/ai/registry.go:41-59 | white space around a key does not change what is fetched |
| Services.UserAPIKeyService.ValidateKey | internal/infra/ai/registry.go:29-38 | a key is good iff it lists some model |
| Services.UserAPIKeyService.RegisterKey | internal/service/user_api_key.go:39-77 | success iff the provider is supported, the trimmed key not blank and good for some model, the master key an AES key, random bytes available and the row stored; each error has its exact cause; row and purge on success, no change otherwise |
| Accounts.RegistrationOutcome | internal/service/user_api_key.go:39-77 | the same of the outcome as a value, and that it decrypts to the trimmed key |
| Services.UserAPIKeyService.DeleteKey | internal/service/user_api_key.go:85-97 | the row and the entry go together; each error has its exact cause and changes neither |
| Services.UserAPIKeyService.GetDecryptedKey | internal/service/user_api_key.go:100-115 | the stored key in clear, not registered, undecryptable, or the failure |
| Services.UserAPIKeyService.GetDecryptedKeys | internal/service/user_api_key.go:124-143 | exactly the stored keys that decrypt, strictly by provider |
| Services.AIModelService.HandleKey | internal/service/ai_model.go:38-55 | one round of cache or fetch on heap slices that stay apart from the cached ones |
| Services.AIModelService.GetAvailableModels | internal/service/ai_model.go:29-58 | models and cache after all rounds; the active providers are exactly those with a key that decrypts, in order; the slice returned is not held by the cache |
| Accounts.DecryptedKeysAreStored | internal/service/user_api_key.go:124-143 | the list has each pair's stored key that decrypts and nothing else, strictly by provider |
| Accounts.ProvidersAreActive | internal/service/ai_model.go:36-40 | active are exactly the providers with a stored key that decrypts, in order |
| AccountRuns.RunsKeepFresh | internal/service/ai_model.go:38-55 | after every serial run each cached list was fetched with the key now stored for its pair |
| AccountRuns.CacheFollowsKeys | internal/service/user_api_key.go:39-97 | no entry without a stored key, and none fetched with another key; failed upserts and deletions included |
| AccountRuns.DiscoverCollects | internal/service/ai_model.go:38-57 | the loop that changes the cache as it goes returns what the cache before it would give key by key |
| AccountRuns.CacheAgreesExactly | internal/service/ai_model.go:29-58 | the cached answer equals the refreshed one iff no fetch fails whose list is cached, live and not empty |
| AccountRuns.CacheHidesFailedFetch | internal/service/ai_model.go:29-58 | for every user, provider and key a run after which they differ |
| AccountRuns.CacheRefinesRecomputation | internal/service/ai_model.go:29-58 | while fetches succeed both are the catalogues of the user's keys in provider order |
| AccountRuns.ModelsBelongToActiveProviders | internal/service/ai_model.go:38-57 | after every serial run cached models carry their provider, and every model returned belongs to a returned active provider |
| AccountRuns.CredentialRoundTrip | internal/service/user_api_key.go:39-115 | a registered key is read back, trimmed, for every nonce and after every run that neither replaces nor deletes it |
| AccountRuns.UsersAreIsolated | internal/service/user_api_key.go:69-95 | whole requests of other users, and sweeps, change neither a user's keys nor what the cache answers that user |
| CacheRaces.RunsKeepInv | internal/service/ai_model.go:30-53 | in every interleaving of writes, purges, reads, lookups, fetches, stores and sweeps: each request works with the keys of the table at the step it read them, each cached list was fetched with such a key and meets what all answers meet, each listing has collected such lists key by key, and a row differs from then only if it was written since |
| CacheRaces.PastIsHistory | internal/service/ai_model.go:30-53 | the recorded past is the table after each prefix of the run |
| CacheRaces.StaleExactlyWhenReplaced | internal/service/user_api_key.go:69-95 | in every interleaving an entry is stale iff the key stored for its pair now differs from the one that was stored when its request read the keys |
| CacheRaces.StaleWasOvertaken | internal/service/user_api_key.go:69-95 | a stale entry's request read the keys before the last write to the pair |
| CacheRaces.StaleWasStoredAfterPurge | internal/service/user_api_key.go:69-95 | with no write waiting for its purge, a stale entry was stored after the last write's purge by a request that read before that write |
| CacheRaces.RaceLeavesStaleEntry | internal/service/ai_model.go:38-53 | for every stored key that lists something, and every deletion or replacement of it, a run that leaves a stale entry at rest |
| CacheAnswers.CachedListsMeet | internal/service/ai_model.go:38-53 | in every interleaving each cached list meets, for its provider and the key it was fetched with, whatever all answers of the providers meet |
| CacheAnswers.CachedListsAreTagged | internal/infra/ai/registry.go:41-59 | in every interleaving each model cached for a pair carries its provider |
| CacheAnswers.CompleteListing | internal/service/ai_model.go:29-58 | in every interleaving a complete listing answers for the keys stored when it read them, and its models are, key by key in order but for failed fetches, lists of keys stored for that user and provider at some step |
| CacheAnswers.ListedModelsBelongToProviders | internal/service/ai_model.go:38-57 | whatever overlaps with it, every model of a complete listing belongs to one of its active providers |
| CacheAnswers.OverlappingListing | internal/service/ai_model.go:29-58 | while a user's keys stay as they are and catalogues are fixed, every complete listing of that user, cached or refreshed and whatever overlaps with it, is the catalogues in provider order, less those whose fetch failed |
| CacheAnswers.OverlappingUsersAreIsolated | internal/service/user_api_key.go:69-95 | from every reachable state, any steps for other users change neither a user's keys and requests nor what the cache answers that user |
| CacheSerial.ListIsSteps | internal/service/ai_model.go:29-58 | a listing served alone takes the steps of the machine: same cache, same models |
| CacheSerial.ServeIsARun | internal/service/user_api_key.go:39-97 | every request served alone leaves table and cache as its steps do, failing database calls included |
| CacheSerial.SerialRunIsARun | internal/service/ai_model.go:29-58 | every serial run of requests is a run of the machine in which requests overlap, with the same table and the same cache |
| GoBytes.TrimSpaceTwice | internal/service/user_api_key.go:40 | a trimmed byte string has no white space of UTF-8 at either end, and trimming again changes nothing |
| GoBytes.TrimSpaceDropsSpaces | internal/service/user_api_key.go:40 | trimming takes nothing but white space off the two ends |
| Text.TrimDropsSpace | web/index.html:1084-1085 | the same for texts and any notion of white space |
| WhiteSpace.SameInUtf8 | internal/infra/ai/client.go:68 | a code point is white space exactly if its UTF-8 bytes are |
| WhiteSpace.GoAndJavaScript | web/index.html:1084-1085 | browser and server agree on white space but for two characters |
| Base64.RoundTrip | internal/infra/crypto/aes.go:74-82 | every byte string of any length is read back |
| Base64.EncodedLength | internal/infra/crypto/aes.go:74 | four letters for every three octets begun |
| Base64.LettersAreTheAlphabet | internal/infra/crypto/aes.go:74 | the alphabet and the pad of section 4 of RFC 4648 |
| Base64.GroupKeepsBits | internal/infra/crypto/aes.go:74 | three octets and their four letters are the same 24 bits |
| Base64.ShortGroups | internal/infra/crypto/aes.go:74 | one or two last octets are written with pads |
| Base64.OnlyCanonicalIsWritten | internal/infra/crypto/aes.go:78-82 | an accepted text is what the encoder writes for its value iff it is canonical |
| Base64.ExtraNewlineIsAccepted | internal/infra/crypto/aes.go:78-82 | every byte string is also read from its text with a newline added |
| Base64.UnusedBitIsAccepted | internal/infra/crypto/aes.go:78-82 | every single byte is also read from a text with an unused bit set |
| Hex.HexRoundTrip | internal/infra/crypto/aes.go:42-54 | hex digits written for bytes are read back |
| Hex.HexAccepts | internal/infra/crypto/aes.go:42-54 | hex is accepted iff it has even length and only hex digits, and gives half as many bytes |
| Hex.HexWritesBack | internal/infra/crypto/aes.go:42-54 | accepted hex is written back in lower case |
| Hex.DigitsAt | internal/infra/crypto/aes.go:42-54 | the digits of each byte stand at its place, the high one first |
| Cipher.ValidatorsAgree | internal/config/env.go:43-55 | for every string start-up accepts the encryption key iff the cipher can be built from it, with 32 bytes |
| Cipher.ParsedKeyIs | internal/infra/crypto/aes.go:42-54 | a key string stands for its 32 raw bytes or for the bytes its 64 hex digits write, and for nothing otherwise |
| Cipher.LoadFails | internal/config/env.go:18-58 | for each start-up error exactly when it results |
| Cipher.EveryKeyConfigurable | internal/infra/crypto/aes.go:42-54 | the hex form of every 32-byte key is parsed to that key |
| Cipher.EncryptWithBytes | internal/infra/crypto/aes.go:56-75 | the text decodes to the first twelve random bytes and a sealed text that opens to the plain text under that nonce; each error has its exact cause |
| Cipher.EncryptedIs | internal/infra/crypto/aes.go:67-74 | the stored text is nonce and sealed text |
| Cipher.NoncesTellTextsApart | internal/infra/crypto/aes.go:67-74 | different random bytes give different texts, whatever is encrypted |
| Cipher.DecryptEncrypted | internal/infra/crypto/aes.go:56-105 | for every nonce the split undoes the prefix and decryption undoes encryption |

## Left out

- HTTP calls, JSON decoding of provider responses, the AI library, SQL and the database connection: arguments and abstract tables stand for them.
- The inside of AES-GCM, and with it what a changed ciphertext leads to: only the round-trip law is used.
- Authentication, routing, CORS, request binding and its length limits, status codes, logging, and the parts of the page outside the read loop and the escaping.
- Context cancellation and timeouts other than as a failing call; a stop in mid-session is a session that takes no further step.
- Bytes of one code point split over two chunks or two network reads; texts are code points throughout the streaming part.
- ChatStream.ShowEvent: takes `JSON.parse` on compact objects of one string member only; other texts count as not parsed, as do escapes of surrogate halves. The server prints no such chunk or error.
- Key hints, row ids and timestamps of key rows, and `MaskAPIKey`.
- The prompt in `ChatServices` takes the stored profile as an argument; storing profiles is not modelled.
- `CreateChat`, `ListChats` and `GetChat` of the service pass on to the repository; the title given to an untitled chat is not modelled.
- Chat lists ordered by update time are a relation on lists (`Listing`), since the order of equal times is the database's choice; there is no method for them.
- The mutex of the cache and the goroutine of the sweeper: each cache operation is one atomic step, and a sweep may come at any time.
- `PurgeUser` is never called by the service; it is a request of its own in the runs.
- Growth in place of Go slices by `append`: a round of `GetAvailableModels` puts the models into a new array. A nil slice and an empty one are the same, as the cache treats them alike.
- Requests that are turned away before their first call to the table take no step in `CacheRaces`; a fetch by a registration to probe its key is none either, since it touches neither table nor cache.
- `OnComplete` is the repository call in the handler's method, not a closure of its own.
- ModelCache.PurgeUserIsExact: needs ids without colons; the exact condition for all ids is `ModelCache.PurgedBy`.
