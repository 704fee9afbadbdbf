# Chat backend core, modelled in Dafny

This project models the sequential logic inside a FastAPI chat backend that
streams LLM answers with document retrieval (RAG) and long-term user memory.
The database, vector store, memory library and LLMs are not modelled; the
model takes what they return as parameters. The parts modelled are:

- **The semantic memory gate** (`MemoryGate`). This is `_should_persist`:
  blank text, short text without a self-referential marker, bare greetings
  and fillers, bare questions and vague phrasing are rejected.
- **The fallback memory store** (`MemoryStore`). `MemoryStub` is a class
  holding a per-user table of entries and one id counter.
  `Mem0MemoryManager` wraps it. Its two add paths pass through the gate;
  update, delete and delete-all go to the store unchecked.
- **The memories routes** (`MemoriesRoutes`). They normalise the
  memory-result shape and map the manager's answers to 404 and 500
  responses.
- **The module-global manager cell** (`Dependencies`). `set_managers`
  writes it, and guarded getters read it.
- **The event protocol both LLM adapters speak** (`GenerationEvents`):
  non-empty tokens, then exactly one terminal `done` event, which may carry
  `error`.
- **The llama.cpp adapter** (`LlamaCpp`): the ChatML prompt encoder, the
  GPU-layer choice, the models loaded lazily at most once, the pull loop and
  the model-info report.
- **The LangChain adapter** (`OpenAIClient`): the provider dispatch at
  construction and the streaming and non-streaming completion.
- **The streaming chat route** (`ChatStream`, over `JsonText`, which is
  `json.dumps` for the shapes the route serialises). It covers:
  - the document block and the deduplicated source list;
  - the memory block and the fixed message order;
  - the relay of events as `data: <json>\n\n` frames until the first
    `done`;
  - the extra sources event, the assistant record and the title trigger;
  - the guarded background memory writes.
- **The model hot-swap** (`ModelSwitch`). Pure guard checks in a fixed
  order decide whether to refuse, do nothing or go ahead. The `Runtime`
  class then updates the client cell, the active model name and the
  persisted default model in place.

`PyStr` and `PyValue` hold the Python semantics the core relies on:
`str.strip` (with Python's exact whitespace set), ASCII `lower`,
`split`-based word counts, `in`, `join`, slicing with negative starts,
truthiness, and untyped values.

Behaviour of the code worth noting:

- The chat route writes the user text and the assistant text to memory
  separately, each through `add_message` and so each through the gate.
- The extra sources event is sent only when the source list is non-empty.
- The switch takes an explicit model name, which must name a file in the
  models directory.
- The gate's key indicators are "prefer", "like", "use", "work",
  "specialize", "live in", "am a" and "my".
- The request's sampling values are passed on as they are.
- `LlamaCppClient` has no `unload`. During a switch that call raises, the
  error is logged, and the outgoing client's loaded model stays as it was.
  `ModelSwitch.Runtime.Switch` states this in its contract.
- `MemoryStub.update` adds a `memory` key to an entry, but the stub's
  search and listing ignore that key. An update is never visible through
  them (`MemoryStore.UpdateInvisible`).
- The greeting and filler rule can never fire. Every greeting or filler is
  already rejected by the short-text rule (`MemoryGate.GreetingRuleSubsumed`).

## Model

| member | source | states |
|---|---|---|
| MemoryGate.BlankRejected | backend/app/memory.py:254-255 | empty and whitespace-only text is never persisted |
| MemoryGate.DependsOnlyOnNormalized | backend/app/memory.py:257 | the verdict is a function of `strip().lower()` of the text alone |
| MemoryGate.CaseInsensitive | backend/app/memory.py:257 | texts equal up to ASCII case get the same verdict |
| MemoryGate.PaddingInsensitive | backend/app/memory.py:254-257 | surrounding whitespace never changes the verdict |
| MemoryGate.RulesReject | backend/app/memory.py:259-288 | each of the four rejection rules, when it fires, makes the gate reject |
| MemoryGate.AcceptedWhenNoRuleFires | backend/app/memory.py:290 | non-blank text that no rule rejects is accepted, so the rules are the only reasons to reject |
| MemoryGate.LongTextAccepted | backend/app/memory.py:259-290 | text of 15 words or more that is no greeting is accepted whatever it contains |
| MemoryGate.HelloRejected | backend/app/memory.py:260-266 | "Hello" is rejected |
| MemoryGate.PreferenceAccepted | backend/app/memory.py:259-290 | "I prefer tea", three words long, is accepted because it holds a key indicator and no other rule fires |
| MemoryGate.NoIndicatorInGreeting | backend/app/memory.py:263-270 | no greeting or filler contains any key indicator |
| MemoryGate.GreetingRuleSubsumed | backend/app/memory.py:259-275 | every text the greeting rule rejects is already rejected by the short-text rule |
| MemoryStore.MemIdInjective | backend/app/memory.py:28 | distinct counter values give distinct `mem_k` ids |
| MemoryStore.EmptyWellNumbered | backend/app/memory.py:23-25 | the empty store with counter 0 satisfies the id invariant |
| MemoryStore.AppendFresh | backend/app/memory.py:27-35 | appending an entry under the next id keeps the id invariant |
| MemoryStore.WithoutIdIds | backend/app/memory.py:68 | filtering out an id keeps every other entry in order and drops an entry iff its id matches |
| MemoryStore.RemoveIdWellNumbered | backend/app/memory.py:66-72 | removing an id keeps the id invariant |
| MemoryStore.OwnerUnique | backend/app/memory.py:59-72 | under the invariant an id belongs to at most one user and one entry, so the first-match scans of update and delete act on all matches |
| MemoryStore.SetMemoryWellNumbered | backend/app/memory.py:57-64 | an update keeps the id invariant and leaves the set of ids unchanged |
| MemoryStore.SearchCount | backend/app/memory.py:37-43 | search returns min(limit, n) items for a positive limit, all n for limit 0, and Python's negative-slice count otherwise |
| MemoryStore.SearchNewestFirst | backend/app/memory.py:41-42 | item k of a search is the summary of the k-th newest entry in the window |
| MemoryStore.UpdateInvisible | backend/app/memory.py:37-64 | an update never changes what search or get_all return |
| MemoryStore.MemoryStub.constructor | backend/app/memory.py:23-25 | the new store is empty, the counter is 0, and the invariant holds |
| MemoryStore.MemoryStub.Add | backend/app/memory.py:27-35 | returns `mem_k` for the counter k before the call, an id not yet in use; appends exactly that entry to this user only and bumps the counter |
| MemoryStore.MemoryStub.Search | backend/app/memory.py:37-43 | the `{"results": …}` wrapper around the reversed window `entries[-limit:]` of summaries |
| MemoryStore.MemoryStub.GetAll | backend/app/memory.py:45-55 | the wrapper around every entry of the user with its id, oldest first |
| MemoryStore.MemoryStub.Update | backend/app/memory.py:57-64 | true iff some entry has the id; that entry gets the new memory text and nothing else changes |
| MemoryStore.MemoryStub.Delete | backend/app/memory.py:66-72 | true iff some entry has the id; exactly the entries with the id are removed |
| MemoryStore.MemoryStub.DeleteAll | backend/app/memory.py:74-77 | returns the user's previous count and leaves that user's list empty, other users untouched |
| MemoryStore.MemoryStub.AddConversationPair | backend/app/memory.py:79-90 | None and no change if either text strips to fewer than 3 characters; otherwise one entry with both messages |
| MemoryStore.MemoryManager.constructor | backend/app/memory.py:93-120 | the manager starts over an empty fallback store |
| MemoryStore.MemoryManager.AddMessage | backend/app/memory.py:292-320 | None and the store untouched when the gate rejects; otherwise one entry tagged `content_type = user_message`, and its id |
| MemoryStore.MemoryManager.AddConversationPair | backend/app/memory.py:334-387 | None and untouched unless the gate accepts the user text and the assistant text strips to at least 3 characters; otherwise one tagged pair entry |
| MemoryStore.MemoryManager.SearchMemory | backend/app/memory.py:402-413 | the store's search result with the user's entries, passed through |
| MemoryStore.MemoryManager.GetAll | backend/app/memory.py:418-421 | the store's listing, passed through |
| MemoryStore.MemoryManager.UpdateMemory | backend/app/memory.py:426-429 | true iff the id exists; that entry's memory text is set |
| MemoryStore.MemoryManager.DeleteMemory | backend/app/memory.py:434-437 | true iff the id exists; the entries with it are removed |
| MemoryStore.MemoryManager.DeleteAll | backend/app/memory.py:442-453 | the native delete_all of the store: the prior count, and an empty list |
| MemoriesRoutes.NormalizeUnwraps | backend/app/routes/memories.py:21-22 | a `{"results": …}` dict normalises to its list |
| MemoriesRoutes.NormalizeKeepsList | backend/app/routes/memories.py:23-24 | a list normalises to itself, so normalising twice changes nothing |
| MemoriesRoutes.NormalizeOtherwiseEmpty | backend/app/routes/memories.py:19-25 | every other value, a dict without "results" included, normalises to `[]` |
| MemoriesRoutes.UpdateNotFoundIff | backend/app/routes/memories.py:43-55 | 404 iff the manager answers falsy; a truthy answer gives success echoing the id; an exception gives exactly 500 "Failed to update memory: " and its message, and 500 arises only that way |
| MemoriesRoutes.DeleteNotFoundIff | backend/app/routes/memories.py:76-85 | 404 iff the manager answers falsy; otherwise success with the id; an exception gives exactly 500 "Failed to delete memory: " and its message, and 500 arises only that way |
| MemoriesRoutes.ClearAllReportsCount | backend/app/routes/memories.py:65-67 | the reported `deleted` is exactly the manager's count; an exception gives 500 "Failed to clear memories: " and its message |
| MemoriesRoutes.GetMemoriesEndpoint | backend/app/routes/memories.py:28-34 | over the fallback store, the user's listing unwrapped under "memories" |
| MemoriesRoutes.UpdateMemoryEndpoint | backend/app/routes/memories.py:40-50 | over the fallback store, 404 iff no entry has the id, else success; the store is updated accordingly |
| MemoriesRoutes.DeleteMemoryEndpoint | backend/app/routes/memories.py:73-80 | over the fallback store, 404 iff no entry has the id, else success; the entry is removed |
| MemoriesRoutes.ClearAllEndpoint | backend/app/routes/memories.py:58-67 | over the fallback store, reports how many entries the user had and empties the list |
| Dependencies.Registry.constructor | backend/app/routes/dependencies.py:16-18 | all three globals start as None |
| Dependencies.Registry.SetManagers | backend/app/routes/dependencies.py:21-30 | all three globals are overwritten with exactly the given values |
| Dependencies.Registry.GetLangchainManager | backend/app/routes/dependencies.py:33-37 | RuntimeError "LangChain manager not initialized" iff the global is None, else its value |
| Dependencies.Registry.GetMem0Manager | backend/app/routes/dependencies.py:40-44 | RuntimeError "Mem0 manager not initialized" iff None, else its value |
| Dependencies.Registry.GetOpenaiClient | backend/app/routes/dependencies.py:47-51 | RuntimeError "OpenAI client not initialized" iff None, else its value |
| Dependencies.Snapshot | backend/app/routes/dependencies.py:33-51 | the three getters' answers together, each an error iff its slot is None and otherwise its value |
| Dependencies.Lifecycle | backend/app/routes/dependencies.py:16-51 | all three getters raise before the first `set_managers`, all three return what it set afterwards, and after a second call each returns only the latest value, raising for a slot set to None |
| GenerationEvents.EmitTokens | backend/app/llamacpp_client.py:282-301 | the pull loop yields one token event per non-empty chunk, in order, then `done`, or `done` with the error if the source raised |
| GenerationEvents.StreamWellFormed | backend/app/llamacpp_client.py:287-301 | exactly one event has `done` and it is last; every earlier event has a non-empty token and no error; `error` appears iff the source raised |
| GenerationEvents.StreamText | backend/app/llamacpp_client.py:270-274 | the concatenated tokens of a stream are the concatenated chunk texts, since dropping empty chunks loses nothing |
| GenerationEvents.TokensNotRetracted | backend/app/llamacpp_client.py:295-298 | the events for the chunks already read open every stream, however it continues or fails |
| LlamaCpp.FormatMessages | backend/app/llamacpp_client.py:185-209 | the prompt is the `"\n"`-join of one segment per message and the open assistant tag |
| LlamaCpp.PromptIsSegmentsThenOpen | backend/app/llamacpp_client.py:199-209 | the joined prompt equals every segment followed by a newline, then `<\|im_start\|>assistant\n` |
| LlamaCpp.PromptEndsWithOpen | backend/app/llamacpp_client.py:207-209 | the prompt has one part per message plus one, and always ends with the open assistant tag |
| LlamaCpp.EmptyPrompt | backend/app/llamacpp_client.py:207-209 | no messages give exactly `<\|im_start\|>assistant\n` |
| LlamaCpp.PromptInOrder | backend/app/llamacpp_client.py:201-204 | messages are encoded in input order |
| LlamaCpp.SegmentDefaults | backend/app/llamacpp_client.py:202-204 | a missing role is "user" and a missing content is "" |
| LlamaCpp.DetectGpuLayers | backend/app/llamacpp_client.py:98-122 | auto-detection yields -1 or 0, and -1 iff CUDA or Apple Silicon was found |
| LlamaCpp.GpuLayersChoice | backend/app/llamacpp_client.py:80-83 | an explicit layer count is kept verbatim; only `None` triggers detection |
| LlamaCpp.EmbedSync | backend/app/llamacpp_client.py:325-333 | one vector per text, and vector i is the model's embedding of text i |
| LlamaCpp.LlamaCppClient.CreateEmbeddings | backend/app/llamacpp_client.py:307-340 | a load failure is re-raised (FileNotFoundError for a missing file) and only then; otherwise vector i is the embedding of text i; the embedding model is set iff the call succeeded |
| LlamaCpp.EmbedQuery | backend/app/llamacpp_client.py:518-529 | fails iff the embedding model cannot be loaded, and otherwise answers with the embedding of the query itself |
| LlamaCpp.LlamaCppClient.constructor | backend/app/llamacpp_client.py:72-87 | paths are the models directory joined with the names, GPU layers are chosen as above, and nothing is loaded |
| LlamaCpp.LlamaCppClient.Create | backend/app/llamacpp_client.py:66-87 | RuntimeError with the install hint iff the library is missing, else a fresh unloaded client with those settings |
| LlamaCpp.LlamaCppClient.GetChatLlm | backend/app/llamacpp_client.py:124-148 | a cached model is returned unchanged; otherwise a missing file is FileNotFoundError and leaves the field empty; a success caches the model, which is built at most once |
| LlamaCpp.LlamaCppClient.GetEmbeddingLlm | backend/app/llamacpp_client.py:159-183 | the same load-once rule for the embedding model |
| LlamaCpp.LlamaCppClient.CreateChatCompletion | backend/app/llamacpp_client.py:211-305 | a model that cannot be loaded gives the single error event and leaves no model cached; otherwise the stream of the pull loop; the cached model is reused, and a first successful load caches the chat model built from the client's settings |
| LlamaCpp.LlamaCppClient.GetModelInfo | backend/app/llamacpp_client.py:342-364 | reports the provider, each path and file existence, the GPU layers, parallel mode and context window; "loaded" is true iff that model has been built once |
| LlamaCpp.ReportAfterCompletion | backend/app/llamacpp_client.py:342-364 | after a completion that found or built the chat model, the report says it is loaded and a second completion streams normally; after one that could not build it, the report says not loaded and a retry fails the same way |
| OpenAIClient.UnknownProviderRejected | backend/app/openai_client.py:95-96 | ValueError "Unknown provider: p" iff the provider is neither "ollama" nor "openai" |
| OpenAIClient.KnownProviderBuilds | backend/app/openai_client.py:67-93 | a known provider fails only with RuntimeError when its integration is missing, and builds the matching backend otherwise |
| OpenAIClient.ProviderDefaults | backend/app/openai_client.py:55 | no provider, or an empty one, means the configured provider; a given provider wins |
| OpenAIClient.OllamaSettings | backend/app/openai_client.py:74-79 | Ollama uses the given base URL or the configured host, the configured model, and a context of 2048 |
| OpenAIClient.OrElse | backend/app/openai_client.py:55 | Python `x or default` on an optional string |
| OpenAIClient.CreateChatCompletion | backend/app/openai_client.py:98-140 | streaming yields the shared event stream; non-streaming exactly one `done` event with the content, or one error event; model and max_tokens do not affect the result |
| JsonText.EscapePrintable | backend/app/routes/chat.py:185-194 | `json.dumps` of any string is printable ASCII, so a frame never contains a raw line break |
| JsonText.EscapePlain | backend/app/routes/chat.py:185 | plain printable text without quote or backslash is encoded as itself |
| ChatStream.BuildDocContext | backend/app/routes/chat.py:114-126 | the document loop builds the header and one piece per hit, and the source list |
| ChatStream.DocContextEmptyIff | backend/app/routes/chat.py:114-115 | the document block is empty iff there are no hits, and otherwise starts with the header |
| ChatStream.SourcesCover | backend/app/routes/chat.py:118-126 | the listed filenames are exactly the hits' filenames, with "Unknown" for a hit without one |
| ChatStream.SourcesDistinct | backend/app/routes/chat.py:122 | no filename is listed twice |
| ChatStream.SourcesFirstSeen | backend/app/routes/chat.py:122-126 | the sources are the first hit for each filename, in first-seen order, with its chat id or the request's |
| ChatStream.FirstIndicesExact | backend/app/routes/chat.py:122 | the first-seen positions increase, are all first occurrences, and include every one |
| ChatStream.BuildMemoryContext | backend/app/routes/chat.py:142-153 | the memory loop gives the normalised block: a header iff the list is truthy, and a line for each dict with "memory" |
| ChatStream.MemoryLinesAreBullets | backend/app/routes/chat.py:148-153 | the memory lines are the concatenation, in order, of `- <memory>` lines for exactly the items that are dicts with "memory" |
| ChatStream.NoMemoryBlockForOtherShapes | backend/app/routes/chat.py:142-147 | a result that is neither a wrapper nor a list gives no memory block |
| ChatStream.StoreSearchGivesBlock | backend/app/routes/chat.py:148-153 | over the fallback store's search, the block is present iff the user has entries |
| ChatStream.MessageOrder | backend/app/routes/chat.py:161-169 | system prompt first, then the memory block, then the document block, each only if non-empty, then the user message last |
| ChatStream.Relay | backend/app/routes/chat.py:172-189 | forwards a frame per event up to and including the first `done`; the response is the concatenation of exactly those tokens |
| ChatStream.RelayStopsAtFirstDone | backend/app/routes/chat.py:188-189 | the relay stops right after the first `done`, and forwards everything when there is none |
| ChatStream.RelayWholeStream | backend/app/routes/chat.py:173-189 | relaying an adapter's stream forwards every event, and the full response is the concatenated chunk texts |
| ChatStream.EventFrameIsOneEvent | backend/app/routes/chat.py:185-186 | every relayed frame is `data: …` ending in its only blank line |
| ChatStream.ErrorFrameIsOneEvent | backend/app/routes/chat.py:264-265 | the error frame is a single server-sent event |
| ChatStream.Generate | backend/app/routes/chat.py:104-265 | when retrieval runs; the system–memory–documents–user order; the frames and the sources event iff sources exist; the record with sources JSON or None; the title trigger iff saved, 4 messages and "New Chat"; the memory task iff useMemory; a stream exception gives one error frame and nothing after |
| ChatStream.PlannedWritesGuarded | backend/app/routes/chat.py:229-243 | every background write strips to at least 3 characters; each text is written iff it does; user first |
| ChatStream.BlankResponseNotWritten | backend/app/routes/chat.py:243 | a blank response is never written to memory |
| ChatStream.UnawaitedMemoryContext | backend/app/routes/chat.py:135-153 | as written, the coroutine reaches the normaliser and the memory block is always empty |
| ChatStream.AwaitedMemoryContext | backend/app/routes/chat.py:135-153 | with the search awaited, the block is present iff the user has stored entries |
| ChatStream.UnawaitedSearchDropsMemories | backend/app/routes/chat.py:135 | for a user with stored memories, the unawaited search gives no block and the awaited one does |
| ChatStream.StoreMemories | backend/app/routes/chat.py:229-251 | awaiting each guarded write adds exactly the texts the gate accepts, in order |
| ChatStream.StoreMemoriesAsWritten | backend/app/routes/chat.py:231-251 | as written, each write only creates a coroutine, and the store is not touched |
| ChatStream.StoreAllEffect | backend/app/memory.py:295-311 | awaited writes add one entry per accepted text to that user and change no other user |
| ChatStream.ThreadpoolLosesWrites | backend/app/routes/chat.py:231-251 | whenever the gate accepts a planned text, the awaited writes change the store while the as-written ones leave it as it was |
| ModelSwitch.ServerProviderFirst | backend/app/routes/models.py:59-63 | a server that is not llama.cpp refuses with 400 whatever is requested |
| ModelSwitch.RequestedProviderSecond | backend/app/routes/models.py:65-69 | a request for another provider gets 400 before any file is looked at |
| ModelSwitch.NameStrippedFirst | backend/app/routes/models.py:71 | only the stripped model name matters |
| ModelSwitch.MissingBeforeNoop | backend/app/routes/models.py:74-83 | a missing file gives 404 even when its name is the active model |
| ModelSwitch.ProceedIff | backend/app/routes/models.py:59-83 | the switch proceeds iff both providers are llama.cpp, the file exists and it is not active; it is a no-op iff it is active |
| ModelSwitch.SecondSwitchIsNoop | backend/app/routes/models.py:80-111 | once a switch has made a model active, asking for it again is a no-op |
| ModelSwitch.Runtime.constructor | backend/app/routes/models.py:108-111 | the cell, the active model and the settings rows as given |
| ModelSwitch.Runtime.Switch | backend/app/routes/models.py:36-136 | refusals and the no-op change nothing; a build failure gives 500 and changes nothing; otherwise a fresh client with the carried-over GPU layers is published, the model is made active, and the default is persisted iff a user is named and has a row; the old client's model stays loaded |

## Left out

- The mem0 configuration and the lazy `AsyncMemory.from_config` set-up, including `_ensure_initialized`. They only configure a foreign library. The manager is modelled over the fallback store.
- The manager's exception paths: the ValueError and Exception handlers of `add_message`, `add_conversation_pair` and `search_memory`, and the empty answers of `get_all`, `update_memory` and `delete_memory`. The fallback store never raises.
- `delete_all`'s fallback path, which fetches and deletes one by one. The fallback store has a native `delete_all`, so that path is never taken.
- MemoryStore.MemoryStub.Update: only the data shape the routes pass, `{"memory": text}`, is modelled. `item.update` with other keys, and replacing `id` or `messages`, is not.
- MemoryStore.MemoryManager.AddMessage: `metadata or {}` adds keys to the caller's dict in place. The model builds a new map, so that aliasing is not captured.
- PyStr.Lower: only ASCII letters are lower-cased. Python's full Unicode case mapping is not modelled.
- PyValue.Render: lists and dicts render as placeholders, not as Python's `repr`.
- LlamaCpp.ModelPath: the path is the directory, "/" and the name. Pathlib's normalisation is not modelled: `str(Path(d) / n)` turns "./models" into "models", drops a trailing "/", and treats blank or absolute names specially. That changes the "path" in the model-info report and the text of FileNotFoundError.
- LlamaCpp.DetectGpuLayers: the torch probe catches only ImportError, so any other error raised while probing CUDA propagates out of the constructor. The model takes the probe's result as a parameter and has no such path.
- Vector search, embeddings managers, the Chroma, Redis and DuckDuckGo clients, and PDF/OCR extraction. These are foreign services.
- llama.cpp inference, the executor threads, and the torch and platform probes. Their results are parameters: the chunk texts, the ending, and `GpuProbe`.
- Temperature, top_p and top_k are floats. They are passed through and never modelled.
- ChatStream.Generate: the first database step (saving the user message, auto-creating the chat and user) is not modelled. Whether the assistant record was committed, the chat's message count and its title are parameters.
- ChatStream.DocResult: hits without "content" or "metadata" are not modelled. In Python this raises KeyError inside the loop and leaves a partial document block.
- ChatStream.MemoryItems: a truthy result that is not a list gives only the header. For strings and dicts Python visits no dict entries; for numbers the TypeError is raised after the header was set and is swallowed. An arbitrary iterable object is not modelled.
- ChatStream.ChatRequest: `systemPrompt` set explicitly to null is not modelled.
- The background tasks themselves: title generation and the memory task are recorded as scheduled or not. The corrected memory task is modelled by `ChatStream.StoreMemories`.
- OpenAIClient.CreateChatCompletion: chunks are taken as their content strings. The `str(chunk)` fallback and list-valued content are not modelled.
- ModelSwitch.Runtime.Switch: the `updated_at` timestamp, logging, and the database session are not modelled. The settings commit is a parameter that may fail.
- `get_llamacpp_client`, `set_llamacpp_client`, `runtime_config` and the `LLAMACPP_*` settings, which `backend/app/routes/models.py` imports, are defined neither in `backend/app/routes/dependencies.py` nor in `backend/app/config.py`. `ModelSwitch.Runtime.client` and its settings stand for those assumed definitions. `backend/main.py:132-136` mounts neither the models router nor the memories router.
- Logging everywhere, and `get_chat_llm`, the public alias of `_get_chat_llm`.

## Findings

| source | as written | input that shows it | evidently intended | confidence | as-written member | corrected member |
|---|---|---|---|---|---|---|
| backend/app/routes/chat.py:135 | `search_memory` is an `async def` called without `await`, so the route normalises a coroutine object, which becomes `[]` | any request with useMemory for a user who has stored memories | await the search, so the user's memories form the memory block | not executed | ChatStream.UnawaitedMemoryContext | ChatStream.AwaitedMemoryContext |
| backend/app/routes/chat.py:231-251 | `run_in_threadpool(mem0_manager.add_message, …)` runs an `async def` in a thread. That only creates a coroutine, which is never awaited, so nothing is stored | useMemory with a user message the gate accepts, e.g. one of ten or more words | await `add_message` for each guarded text | not executed | ChatStream.StoreMemoriesAsWritten | ChatStream.StoreMemories |

`ChatStream.Generate` takes the value the memory search gives as a
parameter. It is read with the search awaited, as in the corrected member.
Its scheduled writes are executed by `ChatStream.StoreMemories`.
