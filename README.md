# nemois Worker core, modelled in Dafny

nemois Worker is a macOS menu-bar app. It serves an on-device language model through a local HTTP server that is compatible with the OpenAI API. This project models the core of that app and proves properties of it:

* **Model session** (`model_session.dfy`, module `ModelSession`). The model's load state machine (not loaded, loading, loaded, error) and the error taxonomy with its descriptions. The conversation budget used in memory mode: the latest message always goes in, then older messages newest first while the character estimate stays within 4096 − 1536 = 2560, stopping at the first one that does not fit. The prompt join. The loop that turns the runtime's cumulative snapshots into deltas. The sentence-embedding lookup.
* **Gateway** (`gateway.dfy`, module `Gateway`). The server's lifecycle. The listening-port rule: a stored port above 1024 is kept, anything else becomes 8080. The route handlers: the 503 guard on the generation routes, the model list, character-count usage, and the embeddings route, which ignores the model state. The server-sent-event framing of streamed chat completions.
* **Wire format** (`wire.dfy`, module `Wire`). The OpenAI request and response records, the decoding of a message's `content`, the snake_case keys, and the fixed `object` literals.
* **Logs** (`logs.dfy`, module `Logs`). The log store: it appends and evicts the oldest entry once there are more than 200.
* **Settings** (`settings.dfy`, module `Settings`). The settings view model: it normalises what it reads from the defaults store and writes every change back under `serverPort` / `modelSelection`.
* `common.dfy` (module `Common`) holds `Option`, `Result`, string concatenation and decimal rendering.

Code that changes state in place is modelled as Dafny classes whose methods `modify` their fields: `ModelManager`, `ServerManager`, `LogStore`, `SettingsViewModel`, the defaults store and the response body writer. Code that computes a value is modelled as functions, each with lemmas about it. Each loop of the source is a method with loop invariants, proved against a specification function:

* the budget walk: `SelectForPrompt` against `SelectionStart`;
* the delta loop: `ComputeDeltas` against `DeltasFrom`;
* the response-text accumulation in `ChatCompletions` and in `Completions`, against the concatenation of the stream's items;
* the streaming loop: `WriteDataEvents` against `DataChunks` and `Frames`.

Foreign behaviour enters as parameters:

| foreign behaviour | modelled as |
|---|---|
| the language model runtime | `runtime: string -> Reply` (cumulative snapshots, then possibly a thrown error) |
| `JSONEncoder` plus UTF-8 conversion | `encode: Json -> Option<string>` |
| the sentence-embedding model | `embedder` |
| the en0 IPv4 address | `ip` |
| UUIDs, the clock and log timestamps | plain values |

The asynchronous tasks are modelled as separate steps, one per main-actor hop of the source:

* model load: `LoadModel` (the synchronous part of `loadModel`), then the detached task's `InitializeModel` and its hop `MarkLoaded`, or its hop `MarkLoadFailed` when the initialization throws;
* server task: `StartServer`, then the task's hops `ServerConfigured`, `TaskFailed` (only when the task throws) and `TaskCleanup` (always); `StopServer` may run between them;
* a streamed response: `ChatCompletions` returns `EventStream`, and later `StreamChat` writes the body.

The steps of overlapping tasks may interleave with each other and with the user's actions. Two such interleavings are proved reachable:

* `LoadedWithoutSession`: two overlapping loads with an unload between their hops leave the manager loaded but without a session, so a generation then fails with `modelNotLoaded` although the routes' guard passes.
* `StaleCleanupStopsRestart`: a restart from the error state, made before the failed task's cleanup hop, is shown as stopped and "Inactive" while the new task is still starting.

Behaviours of the code that the model keeps as they are:

* `loadModel` guards only on the loaded state, so a call while loading starts a second initialization. See `LoadModel`.
* The latest message is included even when it alone is over the limit. See `SelectionWithinBudget`.
* When the generation throws, a stream writes neither the final "stop" chunk nor `[DONE]`. Only the end of the body follows the data events. See `StreamBodyTermination`.
* The role flag flips before a chunk is encoded, so if the first chunk fails to encode, no event carries the role. See `DataChunks` and `WriteDataEvents`.
* The settings accept any port above 0, while the server replaces ports of 1024 and below with 8080. See `SettingsKeepPortServerReplaces`.

Where the description of the system and the code disagree, the model follows the code:

* The server becomes running (with its address shown) once the application is configured, before `app.execute()` binds the socket. A bind failure then moves it from running to the error state.
* A stream whose generation throws does not end with a terminal chunk and `[DONE]`.
* `stopServer` also requires an application to exist, so a stop while still starting (before configuration) does nothing.
* A server start failure is an error state carrying a message string, not a dedicated error case.

## Model

| member | source | states |
|---|---|---|
| Wire.RoleRawValue | nemois_Worker/Manager/OpenAIModels.swift:32-36 | the raw value of each role: "system", "user", "assistant"; `RoleRawValueRoundTrip` states that it parses back |
| Wire.RoleFromRawValue | nemois_Worker/Manager/OpenAIModels.swift:32-36 | `Role(rawValue:)`: the role named by a string, none for any other string; `RoleFromRawValueExact` states which strings are accepted |
| Wire.DecodeRole | nemois_Worker/Manager/OpenAIModels.swift:41 | decoding `role`: a missing, null or non-string value is the container's error, an unknown string the data-corruption error |
| Wire.DecodeContentPart | nemois_Worker/Manager/OpenAIModels.swift:67-71 | one content part: an object with a string `type` and an optional string `text` |
| Wire.RoleRawValueRoundTrip | nemois_Worker/Manager/OpenAIModels.swift:32-36 | a role's raw value parses back to the same role |
| Wire.RoleFromRawValueExact | nemois_Worker/Manager/OpenAIModels.swift:32-36 | exactly "system", "user" and "assistant" parse as roles, and each parses to the role whose raw value it is |
| Wire.DecodeContentParts | nemois_Worker/Manager/OpenAIModels.swift:67-71 | decoding an array of content parts succeeds if and only if every element decodes, and then keeps one part per element, each the decoding of that element |
| Wire.FirstTextPart | nemois_Worker/Manager/OpenAIModels.swift:49 | `first { $0.type == "text" }`; `FirstTextPartAt` and `FirstTextPartAbsent` state which part it picks |
| Wire.PartsText | nemois_Worker/Manager/OpenAIModels.swift:49 | the chosen part's text, "" when there is no such part or it has no text; `PartsTextSelectsFirst` and `PartsTextWithoutTextPart` state it |
| Wire.FirstTextPartAt | nemois_Worker/Manager/OpenAIModels.swift:49 | a part of type "text" with no text part before it is the part chosen |
| Wire.FirstTextPartAbsent | nemois_Worker/Manager/OpenAIModels.swift:49 | with no part of type "text", none is chosen |
| Wire.PartsTextSelectsFirst | nemois_Worker/Manager/OpenAIModels.swift:49 | array content takes the first text part's text (or "" when that part has no text), and later text parts never change it |
| Wire.PartsTextWithoutTextPart | nemois_Worker/Manager/OpenAIModels.swift:49 | array content with no text part decodes to "" |
| Wire.DecodeContent | nemois_Worker/Manager/OpenAIModels.swift:43-52 | the `content` decoding: a string, else an array of parts, else the data-corruption error; its three cases are stated by `StringContentUnchanged`, `ArrayContentDecodes` and `BadContentIsError` |
| Wire.StringContentUnchanged | nemois_Worker/Manager/OpenAIModels.swift:44-45 | string content is decoded unchanged |
| Wire.ArrayContentDecodes | nemois_Worker/Manager/OpenAIModels.swift:47-49 | array content whose parts all decode gives the first text part's text |
| Wire.BadContentIsError | nemois_Worker/Manager/OpenAIModels.swift:50-51 | missing, null, non-string non-array, or malformed-array content is the data-corruption error with the source's description |
| Wire.DecodeChatMessage | nemois_Worker/Manager/OpenAIModels.swift:39-53 | `init(from:)`: the role, then the content; its round trip with `EncodeChatMessage` is `ChatMessageRoundTrip` |
| Wire.EncodeChatMessage | nemois_Worker/Manager/OpenAIModels.swift:55-60 | `encode(to:)`: role and content, the content always as a string; `ReencodeIsStable` states what re-encoding keeps |
| Wire.ChatMessageRoundTrip | nemois_Worker/Manager/OpenAIModels.swift:39-60 | decoding an encoded message gives the message back |
| Wire.ReencodeIsStable | nemois_Worker/Manager/OpenAIModels.swift:55-60 | re-encoding a decoded message writes its content as a string, and decoding that again gives the same message |
| Wire.DecodeChatMessages | nemois_Worker/Manager/OpenAIModels.swift:18 | a decoded message list has one message per element, each the decoding of that element |
| Wire.ChatMessagesRoundTrip | nemois_Worker/Manager/OpenAIModels.swift:18 | a list of encoded messages decodes back to the messages |
| Wire.DecodeChatRequest | nemois_Worker/Manager/OpenAIModels.swift:16-20 | the chat request: `model`, `messages`, then the optional `stream`; `ChatRequestDecoding` states its cases |
| Wire.DecodeCompletionRequest | nemois_Worker/Manager/OpenAIModels.swift:122-125 | the legacy completion request: the strings `model` and `prompt`, each error being the first missing, null or mistyped key |
| Wire.DecodeEmbeddingRequest | nemois_Worker/Manager/OpenAIModels.swift:149-152 | the embedding request: the strings `model` and `input`, each error being the first missing, null or mistyped key |
| Wire.ChatRequestDecoding | nemois_Worker/Manager/OpenAIModels.swift:16-20 | a request with a missing or null `stream` is not streamed, a boolean `stream` is kept, and any other `stream` is a type mismatch |
| Wire.EncodeUsage | nemois_Worker/Manager/OpenAIModels.swift:169-179 | the usage object under its snake_case keys; `UsageKeys` states its key set |
| Wire.EncodeChatChoice | nemois_Worker/Manager/OpenAIModels.swift:83-92 | a chat choice with `finish_reason`; `ChatChoiceKeys` states its key set |
| Wire.EncodeChatResponse | nemois_Worker/Manager/OpenAIModels.swift:74-81 | the chat response object: id, object, created, model, choices and usage |
| Wire.EncodeStreamDelta | nemois_Worker/Manager/OpenAIModels.swift:115-118 | a delta, leaving out the absent role or content; `StreamDeltaKeys` states its key set |
| Wire.EncodeStreamChoice | nemois_Worker/Manager/OpenAIModels.swift:104-113 | a stream choice, leaving out an absent finish reason; `StreamChoiceKeys` states its key set |
| Wire.EncodeStreamChunk | nemois_Worker/Manager/OpenAIModels.swift:96-102 | a stream chunk carrying the fixed object "chat.completion.chunk"; `ObjectLiterals` states it |
| Wire.EncodeCompletionChoice | nemois_Worker/Manager/OpenAIModels.swift:136-145 | a completion choice with `finish_reason`; `CompletionChoiceKeys` states its key set |
| Wire.EncodeCompletionResponse | nemois_Worker/Manager/OpenAIModels.swift:127-134 | the completion response object: id, object, created, model, choices and usage |
| Wire.EncodeEmbeddingData | nemois_Worker/Manager/OpenAIModels.swift:161-165 | one embedding vector with the fixed object "embedding" |
| Wire.EncodeEmbeddingResponse | nemois_Worker/Manager/OpenAIModels.swift:154-159 | the embeddings response with the fixed object "list" |
| Wire.EncodeModelObject | nemois_Worker/Manager/OpenAIModels.swift:188-198 | a model descriptor with the fixed object "model" and `owned_by`; `ModelObjectKeys` states its key set |
| Wire.EncodeModelList | nemois_Worker/Manager/OpenAIModels.swift:183-186 | the model list with the fixed object "list" |
| Wire.UsageKeys | nemois_Worker/Manager/OpenAIModels.swift:169-179 | usage is encoded with exactly prompt_tokens, completion_tokens and total_tokens, and no camelCase key |
| Wire.ChatChoiceKeys | nemois_Worker/Manager/OpenAIModels.swift:83-92 | a chat choice is encoded with exactly index, message and finish_reason |
| Wire.CompletionChoiceKeys | nemois_Worker/Manager/OpenAIModels.swift:136-145 | a completion choice is encoded with exactly text, index and finish_reason |
| Wire.StreamChoiceKeys | nemois_Worker/Manager/OpenAIModels.swift:104-113 | a stream choice is encoded with index and delta, plus finish_reason only when it has one |
| Wire.ModelObjectKeys | nemois_Worker/Manager/OpenAIModels.swift:188-198 | a model descriptor is encoded with exactly id, object, created and owned_by |
| Wire.ObjectLiterals | nemois_Worker/Manager/OpenAIModels.swift:96-102 | every chunk says "chat.completion.chunk"; embedding data, embedding lists, model lists and model descriptors carry "embedding", "list", "list" and "model" (lines 155, 162, 184, 190) |
| Wire.StreamDeltaKeys | nemois_Worker/Manager/OpenAIModels.swift:115-118 | a delta's role and content keys appear exactly when present, so the terminal delta encodes as an empty object |
| ModelSession.ErrorDescription | nemois_Worker/Manager/ModelManager.swift:176-190 | `errorDescription` of each error: the six fixed texts and an invalid URL's own message; `ErrorDescriptionIdentifiesError` states that it tells the errors apart |
| ModelSession.ErrorDescriptionIdentifiesError | nemois_Worker/Manager/ModelManager.swift:176-190 | an invalid-URL error is described by its message, and distinct fixed errors have distinct descriptions |
| ModelSession.Cost | nemois_Worker/Manager/ModelManager.swift:111-119 | a message's token estimate; `CostIsEstimate` states that it is the estimate of "role: content\n" |
| ModelSession.WalkStart | nemois_Worker/Manager/ModelManager.swift:117-130 | the index where the newest-first walk stops; it never moves past the messages still to consider |
| ModelSession.SelectionStart | nemois_Worker/Manager/ModelManager.swift:108-130 | the index of the oldest message the memory-mode prompt includes, always a valid index, so the latest message is always included |
| ModelSession.WalkStartFacts | nemois_Worker/Manager/ModelManager.swift:117-130 | the walk keeps a running total within the limit and stops where the next older message would exceed it |
| ModelSession.SelectionFacts | nemois_Worker/Manager/ModelManager.swift:108-130 | a selection longer than the latest message fits the limit, and the message just before it would not fit on top of it |
| ModelSession.SelectionIsSuffixWithLatest | nemois_Worker/Manager/ModelManager.swift:108-130 | the selection is a non-empty suffix of the conversation in chronological order, ending with the latest message |
| ModelSession.SelectionWithinBudget | nemois_Worker/Manager/ModelManager.swift:110-130 | the selection's estimated cost is within 2560 unless it is the latest message alone, which is what an over-limit latest message gives |
| ModelSession.SelectionStopsAtFirstMiss | nemois_Worker/Manager/ModelManager.swift:122-129 | the walk stops at the first message that does not fit: no older, smaller message is taken after a miss |
| ModelSession.SelectionIsLongestFittingSuffix | nemois_Worker/Manager/ModelManager.swift:115-130 | any longer suffix is over the limit, so the selection is the longest suffix that fits |
| ModelSession.PromptOf | nemois_Worker/Manager/ModelManager.swift:132 | the selected messages joined as "role: content" lines |
| ModelSession.PromptLengthIsCostMinusOne | nemois_Worker/Manager/ModelManager.swift:111-132 | the estimate counts each "role: content\n" line, so it is one more than the joined prompt's length |
| ModelSession.BuildPrompt | nemois_Worker/Manager/ModelManager.swift:108-142 | the prompt: the budgeted selection in memory mode, the latest message alone otherwise; `BuildPromptShape` states its shape |
| ModelSession.BuildPromptShape | nemois_Worker/Manager/ModelManager.swift:108-142 | outside memory mode the prompt is the latest line; in memory mode it is shorter than the limit unless the latest message is over it, in which case it is that message's line, and it always ends with the latest message's line |
| ModelSession.PromptEndsWithLast | nemois_Worker/Manager/ModelManager.swift:132 | a joined prompt ends with its last message's line |
| ModelSession.CostIsEstimate | nemois_Worker/Manager/ModelManager.swift:111-119 | a message's cost is the one-token-per-character estimate of its "role: content\n" text, as both estimate sites compute it |
| ModelSession.SelectForPrompt | nemois_Worker/Manager/ModelManager.swift:108-130 | the walk's result is the budgeted selection and its token count is that selection's estimated cost |
| ModelSession.DeltasFrom | nemois_Worker/Manager/ModelManager.swift:150-159 | the deltas the loop yields for a snapshot sequence; `DeltasNonEmpty`, `DeltasAppend` and `DeltasRebuildFinalSnapshot` state its properties |
| ModelSession.ComputeDeltas | nemois_Worker/Manager/ModelManager.swift:150-159 | the delta loop yields exactly the deltas of the snapshot sequence |
| ModelSession.DeltasNonEmpty | nemois_Worker/Manager/ModelManager.swift:153-157 | no empty delta is ever yielded |
| ModelSession.DeltasAppend | nemois_Worker/Manager/ModelManager.swift:150-159 | deltas compose over concatenated snapshot runs, with the second run continuing from the last text emitted |
| ModelSession.LastEmittedCoversLast | nemois_Worker/Manager/ModelManager.swift:153-158 | the text last emitted is at least as long as the final snapshot |
| ModelSession.ShortSnapshotYieldsNothing | nemois_Worker/Manager/ModelManager.swift:153-155 | a snapshot no longer than the last emitted text yields nothing |
| ModelSession.RepeatYieldsNothing | nemois_Worker/Manager/ModelManager.swift:153-155 | repeating the final snapshot yields no further delta |
| ModelSession.ChainDeltasRebuild | nemois_Worker/Manager/ModelManager.swift:150-159 | for snapshots that extend each other, the emitted text plus the deltas is the final snapshot |
| ModelSession.DeltasRebuildFinalSnapshot | nemois_Worker/Manager/ModelManager.swift:150-159 | for such snapshots the deltas concatenate to the final snapshot |
| ModelSession.GeneratedStream | nemois_Worker/Manager/ModelManager.swift:73-166 | the stream `generateResponse` produces; `GeneratedStreamFacts` states its guard cases and that no item is empty |
| ModelSession.GeneratedStreamFacts | nemois_Worker/Manager/ModelManager.swift:73-166 | without a session the stream fails with modelNotLoaded, an empty conversation finishes with no items, and every item is non-empty |
| ModelSession.GenerateEmbedding | nemois_Worker/Manager/ModelManager.swift:168-172 | an unavailable model and a missing vector are the two distinct errors, and otherwise the result is the lookup's vector |
| ModelSession.ModelManager.constructor | nemois_Worker/Manager/ModelManager.swift:23-25 | starts not loaded, without a session, memory mode off |
| ModelSession.ModelManager.IsModelLoaded | nemois_Worker/Manager/ModelManager.swift:61-64 | `isModelLoaded`: the state is loaded; `LoadedQueriesAgree` states it |
| ModelSession.ModelManager.CurrentModelInfo | nemois_Worker/Manager/ModelManager.swift:66-71 | a descriptor exists if and only if the model is loaded, and it is apple-foundation-model owned by Apple, created at the given time |
| ModelSession.ModelManager.LoadModel | nemois_Worker/Manager/ModelManager.swift:28-36 | acts if and only if not loaded; then the state becomes loading (also when already loading) and nothing else changes |
| ModelSession.ModelManager.InitializeModel | nemois_Worker/Manager/ModelManager.swift:192-195 | installs a new session and leaves the state and memory mode unchanged |
| ModelSession.ModelManager.MarkLoaded | nemois_Worker/Manager/ModelManager.swift:40-43 | the state becomes loaded; the session and memory mode are unchanged |
| ModelSession.ModelManager.MarkLoadFailed | nemois_Worker/Manager/ModelManager.swift:44-49 | the state becomes the error "Model load failed: " plus the description; the session and memory mode are unchanged |
| ModelSession.ModelManager.UnloadModel | nemois_Worker/Manager/ModelManager.swift:54-59 | from any state, the session is released and the state is not loaded |
| ModelSession.ModelManager.GenerateResponse | nemois_Worker/Manager/ModelManager.swift:73-166 | the stream is the session guard, the empty-conversation finish, or the deltas of the runtime's reply to the built prompt followed by its error |
| ModelSession.LoadedQueriesAgree | nemois_Worker/Manager/ModelManager.swift:61-79 | loaded and "has a descriptor" coincide, the descriptor is apple-foundation-model owned by Apple, and a generation fails with modelNotLoaded exactly when there is no session, whatever the state |
| ModelSession.LoadedWithoutSession | nemois_Worker/Manager/ModelManager.swift:28-59 | two overlapping loads with an unload between their hops reach a loaded state without a session |
| Logs.Appended | nemois_Worker/Manager/LogStore.swift:39-44 | one add on the main queue: append, then drop the first entry when over 200; the lemmas below state its effect |
| Logs.AppendedBoundedEndsWithEntry | nemois_Worker/Manager/LogStore.swift:39-44 | after an add the log holds at most 200 entries and ends with the new one |
| Logs.AppendedBelowCapacity | nemois_Worker/Manager/LogStore.swift:40-43 | below capacity an add is a pure append, keeping every earlier entry |
| Logs.AppendedAtCapacity | nemois_Worker/Manager/LogStore.swift:40-43 | at capacity an add evicts exactly the oldest entry and keeps the order of the rest |
| Logs.AppendedAll | nemois_Worker/Manager/LogStore.swift:30-45 | a series of adds, applied in order |
| Logs.AppendedAllIsWindow | nemois_Worker/Manager/LogStore.swift:30-45 | after any series of adds the log is the newest 200 (or fewer) of all entries, in order |
| Logs.LogStore.constructor | nemois_Worker/Manager/LogStore.swift:15 | the log starts empty |
| Logs.LogStore.Add | nemois_Worker/Manager/LogStore.swift:30-45 | stamps the message as "timestamp message", appends it and evicts the oldest entry past 200, keeping the bound |
| Settings.SelectionRawValueRoundTrip | nemois_Worker/Manager/SettingsViewModel.swift:47-51 | an option's raw value parses back to it, and its id is its raw value |
| Settings.IntegerFor | nemois_Worker/Manager/SettingsViewModel.swift:41 | `integer(forKey:)`: the stored integer, 0 for a missing key |
| Settings.InitialSelection | nemois_Worker/Manager/SettingsViewModel.swift:39-40 | the selection `init` restores; `InitialSelectionRule` states it |
| Settings.InitialPort | nemois_Worker/Manager/SettingsViewModel.swift:41-42 | the port `init` restores; `InitialPortRule` states it |
| Settings.InitialSelectionRule | nemois_Worker/Manager/SettingsViewModel.swift:39-40 | a missing or unrecognised stored selection restores built-in, and a recognised one restores itself |
| Settings.InitialPortRule | nemois_Worker/Manager/SettingsViewModel.swift:41-42 | a positive stored port is restored and anything else gives 8080, so the port is always positive |
| Settings.SettingsViewModel.constructor | nemois_Worker/Manager/SettingsViewModel.swift:37-43 | reads and normalises the stored selection and port, without writing to the store |
| Settings.SettingsViewModel.SetModelSelection | nemois_Worker/Manager/SettingsViewModel.swift:19-23 | an assignment writes the raw value under "modelSelection" and leaves the port alone |
| Settings.SettingsViewModel.SetServerPort | nemois_Worker/Manager/SettingsViewModel.swift:25-29 | an assignment writes the port under "serverPort" and leaves the selection alone |
| Settings.SettingsPersist | nemois_Worker/Manager/SettingsViewModel.swift:19-43 | what the setters write is what a later initialisation restores, and writing either key leaves what is restored from the other unchanged |
| Gateway.ConfiguredPort | nemois_Worker/Manager/ServerManager.swift:94-95 | the port `configure` sets from the stored setting; `SettingsKeepPortServerReplaces` and `SettingsPortReachesServer` relate it to the settings |
| Gateway.ListenPort | nemois_Worker/Manager/ServerManager.swift:94-95 | the server never listens on a port of 1024 or below |
| Gateway.ListenPortRule | nemois_Worker/Manager/ServerManager.swift:94-95 | a port above 1024 is kept, any other becomes 8080, and the rule is idempotent |
| Gateway.SettingsKeepPortServerReplaces | nemois_Worker/Manager/ServerManager.swift:94-95 | a port in 1..1024 saved in the settings is restored by them, while the server listens on 8080 instead |
| Gateway.SettingsPortReachesServer | nemois_Worker/Manager/ServerManager.swift:94-95 | a port above 1024 saved in the settings is the one the server listens on |
| Gateway.ServerAddress | nemois_Worker/Manager/ServerManager.swift:50-52 | the shown address; `ServerAddressCarriesPort` states its form |
| Gateway.ServerAddressCarriesPort | nemois_Worker/Manager/ServerManager.swift:50-52 | the address is "http://", the host (en0 address or localhost), ":" and digits that read back as the listening port |
| Gateway.ServerManager.constructor | nemois_Worker/Manager/ServerManager.swift:20-29 | starts stopped, "Inactive", without an application |
| Gateway.ServerManager.StartServer | nemois_Worker/Manager/ServerManager.swift:31-36 | a no-op while starting or running, and otherwise the state becomes starting (an error state may be restarted) |
| Gateway.ServerManager.ServerConfigured | nemois_Worker/Manager/ServerManager.swift:48-59 | the application is recorded with the port from the settings store, the address is shown, and the state is running |
| Gateway.ServerManager.TaskFailed | nemois_Worker/Manager/ServerManager.swift:63-68 | the state becomes the error "Server start/run failed: " plus the description; the address and application are unchanged |
| Gateway.ServerManager.TaskCleanup | nemois_Worker/Manager/ServerManager.swift:71-78 | the application is released; an error state and its address are kept; any other state becomes stopped and "Inactive" |
| Gateway.ServerManager.StopServer | nemois_Worker/Manager/ServerManager.swift:82-91 | acts if and only if an application exists while starting or running (so always when running with an application), then shows stopped and "Inactive"; otherwise nothing changes; the application is kept |
| Gateway.StaleCleanupStopsRestart | nemois_Worker/Manager/ServerManager.swift:31-78 | a restart made between a failed task's error hop and its cleanup hop is shown as stopped and "Inactive" |
| Gateway.ServerManager.ListModels | nemois_Worker/Manager/ServerManager.swift:100-107 | lists the single apple-foundation-model descriptor when loaded and nothing otherwise |
| Gateway.ServerManager.ChatCompletions | nemois_Worker/Manager/ServerManager.swift:109-185 | 503 "AI model is not loaded." before decoding; decoding errors; an event stream when stream is true; otherwise the collected reply, or the generation's error |
| Gateway.ServerManager.Completions | nemois_Worker/Manager/ServerManager.swift:187-199 | the same guard, then the prompt generated as one user message; the loop collects the concatenated items, answered as a text completion or the generation's error |
| Gateway.ServerManager.Embeddings | nemois_Worker/Manager/ServerManager.swift:201-209 | independent of the model state: the decoding error, the embedding error, or one vector at index 0 |
| Gateway.ServerManager.StreamChat | nemois_Worker/Manager/ServerManager.swift:115-171 | the streamed body is exactly the framing of the stream generated for the request's messages, with id "chatcmpl-" and the UUID |
| Gateway.WriteStream | nemois_Worker/Manager/ServerManager.swift:150-170 | writes the data events, then after a normal finish the final chunk's event and [DONE], and always the end |
| Gateway.WriteDataEvents | nemois_Worker/Manager/ServerManager.swift:122-149 | writes one event per non-empty item that encodes, the first built chunk carrying the role |
| Gateway.ChatUsage | nemois_Worker/Manager/ServerManager.swift:179-181 | chat usage from the joined contents and the reply; `ChatUsageCounts` states the counts |
| Gateway.ChatResponseFor | nemois_Worker/Manager/ServerManager.swift:175-182 | the non-streamed chat response: "chatcmpl-" id, one assistant choice with "stop", chat usage; `ResponseUsageBalanced` states its usage |
| Gateway.CompletionResponseFor | nemois_Worker/Manager/ServerManager.swift:194-198 | the completion response: "cmpl-" id, one text choice with "stop", prompt characters as prompt tokens |
| Gateway.EmbeddingResponseFor | nemois_Worker/Manager/ServerManager.swift:205-208 | the embeddings response: one vector at index 0, input characters as prompt tokens and no completion |
| Gateway.ChatUsageCounts | nemois_Worker/Manager/ServerManager.swift:179-181 | chat prompt tokens are the summed characters of all message contents, each message adding exactly its own, and total = prompt + completion |
| Gateway.ResponseUsageBalanced | nemois_Worker/Manager/ServerManager.swift:177-207 | chat and completion responses carry the text and count prompt + completion; embeddings count the input and no completion |
| Gateway.CompletionPromptIsUserLine | nemois_Worker/Manager/ServerManager.swift:190-193 | the legacy prompt reaches the model as "user: " plus the prompt, whatever the memory mode |
| Gateway.Frames | nemois_Worker/Manager/ServerManager.swift:138-148 | the events for the chunks that encode; `FramesFacts` states its properties |
| Gateway.NonEmpty | nemois_Worker/Manager/ServerManager.swift:125 | the non-empty items; `NonEmptyFacts` states its properties |
| Gateway.DataChunks | nemois_Worker/Manager/ServerManager.swift:122-136 | the data chunks the loop builds; `DataChunksFacts` states its properties |
| Gateway.StreamBody | nemois_Worker/Manager/ServerManager.swift:115-171 | the whole streamed body; `StreamBodyTermination` states how it ends |
| Gateway.FramesFacts | nemois_Worker/Manager/ServerManager.swift:138-148 | frames are buffers, at most one per chunk, and exactly one per chunk, in order, when every chunk encodes |
| Gateway.DataChunksFacts | nemois_Worker/Manager/ServerManager.swift:124-136 | one chunk per non-empty item carrying it; only the first carries the assistant role; none has a finish reason |
| Gateway.NonEmptyFacts | nemois_Worker/Manager/ServerManager.swift:125 | skipping empty items loses no text and skips nothing when no item is empty |
| Gateway.StreamBodyTermination | nemois_Worker/Manager/ServerManager.swift:150-170 | the body ends with exactly one end marker; after a normal finish the final chunk's event and [DONE] precede it; after a thrown error only the data events do |
| Gateway.FinishReasonOnlyOnFinal | nemois_Worker/Manager/ServerManager.swift:150-152 | among the chunks sent, only the last has a finish reason ("stop"), and it is sent exactly when the generation did not throw |
| Gateway.ChunkContentsOfData | nemois_Worker/Manager/ServerManager.swift:124-136 | the data chunks' contents are the non-empty items in order |
| Gateway.StreamedTextIsFinalSnapshot | nemois_Worker/Manager/ServerManager.swift:115-176 | for extending snapshots, the streamed contents and the collected reply both equal the runtime's final text, with no item skipped |

## Left out

- Logging calls made by the managers and the route handlers are not modelled; `LogStore` is modelled on its own. The lock and the hop to the main queue are not modelled either: `Add` is one atomic step.
- ModelSession.ModelManager: the model does not promise that a loaded manager has a session. The source does not keep that invariant (`LoadedWithoutSession`), so the routes' loaded guard does not rule out a `modelNotLoaded` generation error.
- Concurrency. The steps of one task are separate methods, and the model does not enforce their order within the task: for example, it also allows `MarkLoaded` with no `InitializeModel` before it. Threads, the main actor itself and the weak `self` guard (status 500) are not modelled.
- The Vapor application is not modelled: environment detection, `Application.make`, the 500 kB body limit, host 0.0.0.0, route registration, `execute` and `asyncShutdown`. `Application` keeps only its port. The `/health` route is the constant `HealthText`.
- The language model runtime, `JSONEncoder`, UTF-8 conversion, the sentence-embedding model, `getifaddrs` and `UUID`/`Date` are foreign. They are parameters.
- HTTP encoding of a non-streamed response (`encodeResponse`), and the error response Vapor builds for a thrown error. A route's result is a `RouteResult` value.
- The `outputProcessingError` branch of `generateResponse` (ModelManager.swift:144-147) cannot be reached, because a session always returns a stream. It is not modelled.
- `initializeModel` (ModelManager.swift:192-195) cannot actually throw. `MarkLoadFailed` still models the catch of `loadModel`.
- `String.count` counts grapheme clusters. The model counts `char`s, and `ceil(Double(n) / 1.0)` is written as `n`.
- Embedding vectors of `Double` are modelled as `real`.
- Settings.IntegerFor: a stored string is read as 0, whereas Foundation's `integer(forKey:)` would parse a numeric string.
- The `modelStoragePath` key is declared and never used; the model only declares it.
- Wire.DecodeRole: the text of the data-corruption error for an unknown role only approximates Foundation's wording.
- Foundation's other `DecodingError` details (coding paths) are not modelled.
- Views, the system monitor, the directory picker and the app entry point are not part of this model.
