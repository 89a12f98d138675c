# Thunderdome core, modelled in Dafny

Thunderdome is a Next.js application that sends one prompt to up to three large
language models at once and shows their streamed answers side by side. A Gemini
"judge" can then compare the finished answers. The project here models the
sequential core of that application:

- the model registry and the `SelectedModel` and `StreamChunk` types;
- the three provider adapters (OpenAI, Anthropic, Google): the request each builds,
  the lazily created client, and how each turns the SDK stream into `onChunk`
  calls and one `onDone` or `onError`;
- the execution route `POST /api/execute`: its validation, the dispatch by
  provider, the tagging of every callback as a `StreamChunk`, its framing as a
  server-sent event, and the interleaving of the concurrent model streams;
- the client that reads the stream (`useExecution` and the arena page): line
  buffering of the received text, parsing of `data: ` lines, the reducer over the
  response table, and the failure, cancel and reset paths;
- the evaluation route `POST /api/evaluate`, which builds the judge prompt, and the
  evaluator panel that calls it;
- the prompt state, the slot selection and the arena context;
- the guest quota: the configured limit, the per-IP store, the remaining count and
  the `GET /api/auth/guest-status` reply;
- the authentication middleware;
- the connectivity script `scripts/test-models.ts`.

Each source file is one Dafny module:

- `models.dfy` — `src/types/models.ts`
- `adapter.dfy` — the shared part of `src/lib/clients/*.ts`
- `openai_client.dfy`, `anthropic_client.dfy`, `google_client.dfy` — the three clients
- `execute_route.dfy` — `src/app/api/execute/route.ts`
- `line_buffer.dfy`, `responses.dfy`, `use_execution.dfy` — `src/hooks/use-execution.ts`
- `arena.dfy` — `src/components/arena.tsx`
- `end_to_end.dfy` — the route and the hook together
- `evaluate_route.dfy` — `src/app/api/evaluate/route.ts`
- `evaluator_panel.dfy` — `src/components/evaluator-panel.tsx`
- `prompts.dfy` — `src/hooks/use-prompts.ts`
- `model_selection.dfy` — `src/hooks/use-model-selection.ts`
- `arena_context.dfy` — `src/contexts/arena-context.tsx`
- `guest_rate_limit.dfy` — `src/lib/guest-rate-limit.ts`
- `guest_status.dfy` — `src/app/api/auth/guest-status/route.ts`
- `middleware.dfy` — `src/middleware.ts`
- `test_models.dfy` — `scripts/test-models.ts`
- `util.dfy` — shared string and sequence helpers

What the source does step by step, the model does imperatively:

- The lazily created SDK client is a class (`Adapter.LazyClient`).
- The IP store is a class over a `map` (`GuestRateLimit.IPStore`).
- The client's line buffer is a class (`Responses.StreamAccumulator`).
- The hook's and the arena's refs and state are classes (`UseExecution.Execution`,
  `Arena.ArenaState`).
- The read loops, the failure loop, the stream multiplexer and the script's loops
  are methods with loop invariants.
- Each of these is proved against a specification function.

React's state updaters, the routes' request handling, the line splitting and the
reducer are pure expressions, so the model writes them as functions. A JavaScript
`Map` becomes a `Responses.Table`: a `map` plus the list of its keys in insertion
order, because the evaluator panel reads the entries in that order.

The proofs cover these properties:

- Each adapter sends the text its SDK streamed, with empty deltas dropped
  (Anthropic passes them on).
- The chunks of each model reach the client in order, in every interleaving of the
  concurrent adapters.
- The buffered SSE reader's result does not depend on how the network split the
  bytes.
- A client that received the whole stream holds, for each model, exactly the text
  that model's adapter emitted (`EndToEnd.FinishedClientSeesAll`).

Some behaviours of the code are easy to miss. The model follows the code in each:

- **Empty system prompt.** The execution route rejects it (`!systemPrompt`,
  `src/app/api/execute/route.ts:25-27`), although every adapter treats an empty one
  as absent.
- **Duplicate model ids.** The route does not reject them. They share one entry of
  the client's table. The end-to-end lemmas therefore require distinct ids
  (`EndToEnd.DistinctIds`).
- **Output limits.** The route never passes `maxTokens`, and the registry has no
  `maxOutputTokens`.
  - OpenAI and Google leave the limit out.
  - Anthropic sends its default of 8192.
  - The adapters' limit parameter is kept as `Option<int>` and is always `None` on
    this path.
- **Quota.** The execution route does not check the guest quota. The 429 branch of
  the arena page is modelled, but this route never triggers it.
- **The arena page.** It reads response state (`responses`, `setResponses`,
  `clearResponses`, `setEvaluation`) that `src/contexts/arena-context.tsx` does not
  define.
  - The model gives the arena page its own table and evaluation fields.
  - It reuses the reducer of `useExecution`, which the page repeats line for line.

## Model

| member | source | states |
|---|---|---|
| Models.FindIn | src/app/api/execute/route.ts:51-53 | the lookup result is an entry with the requested id, and it is absent exactly when no entry has that id |
| Models.RegistryIdsDistinct | src/types/models.ts:11-106 | no two registry entries share an id |
| Models.FindModelOfEntry | src/types/models.ts:11-106 | looking up any registry entry's id finds that very entry |
| Models.RegistryWellFormed | src/types/models.ts:1-9 | every registry entry has a non-empty id and name, one of the three providers and a positive context window |
| Adapter.NotConfigured | src/lib/clients/openai.ts:44-48 | a missing client emits no content and a single error with the given message |
| Adapter.NonEmpty | src/lib/clients/openai.ts:80-83 | only non-empty texts are forwarded, never more than were received |
| Adapter.NonEmptyText | src/lib/clients/google.ts:54-61 | dropping empty texts loses no text: the concatenation is unchanged, and every non-empty text is still sent |
| Adapter.NonEmptyAppend | src/lib/clients/google.ts:54-61 | filtering distributes over concatenation, so it can be applied piece by piece as the stream arrives |
| Adapter.UsageOf | src/lib/clients/google.ts:64-71 | missing usage metadata, or a missing count within it, reads as 0 |
| Adapter.LazyClient.constructor | src/lib/clients/openai.ts:4 | no client exists before the first call |
| Adapter.LazyClient.Get | src/lib/clients/openai.ts:6-18 | no key gives no client and leaves the cache alone; with a key, the cached client is returned and is created at most once, with the first key seen |
| OpenAIClient.RegistryReasoningModels | src/lib/clients/openai.ts:31-33 | among the registered models exactly `o1` and `o1-mini` are treated as reasoning models |
| OpenAIClient.ReasoningPrefix | src/lib/clients/openai.ts:31-33 | a model is a reasoning model exactly when its id starts with `o1`, `o3` or `gpt-5` |
| OpenAIClient.Messages | src/lib/clients/openai.ts:52-66 | exactly one message for a reasoning model or an empty system prompt, two otherwise; the last message is the user's and an earlier one is the system prompt; a reasoning model gets the system prompt, a blank line and the user prompt in one user message |
| OpenAIClient.Request | src/lib/clients/openai.ts:68-75 | the request names the model and those messages, and carries `max_tokens` exactly when a limit is given |
| OpenAIClient.DeltaTexts | src/lib/clients/openai.ts:80 | one text per stream chunk, the empty text where the chunk has no delta content |
| OpenAIClient.LastUsageMeaning | src/lib/clients/openai.ts:77-92 | the reported usage is all zero when no chunk carries usage, and otherwise the usage of the last chunk that does |
| OpenAIClient.ReadStream | src/lib/clients/openai.ts:79-92 | the loop forwards exactly the non-empty delta texts in order and ends with the last reported usage |
| OpenAIClient.OpenAIEmission | src/lib/clients/openai.ts:44-97 | unconfigured: one error; otherwise the non-empty deltas, then an error with the thrown message, or done with the last usage |
| OpenAIClient.EmittedText | src/lib/clients/openai.ts:79-83 | the text forwarded equals the whole streamed text |
| OpenAIClient.StreamOpenAIResponse | src/lib/clients/openai.ts:35-98 | the SDK is asked exactly when a key exists, with the request above; the callbacks receive the emission above; the client is created at most once |
| AnthropicClient.Request | src/lib/clients/anthropic.ts:46-51 | the model; the given limit or 8192; a system field exactly when the system prompt is non-empty; one user message |
| AnthropicClient.TextDeltasAppend | src/lib/clients/anthropic.ts:53-60 | only text-delta events yield text, one each, in order, empty texts included |
| AnthropicClient.ReadStream | src/lib/clients/anthropic.ts:53-60 | the loop forwards exactly the texts of the text-delta events |
| AnthropicClient.FinalUsage | src/lib/clients/anthropic.ts:62-67 | prompt and completion tokens come from the final message, and the total is their sum |
| AnthropicClient.AnthropicEmission | src/lib/clients/anthropic.ts:39-70 | unconfigured: one error; otherwise the text deltas, then an error with the thrown message, or done with the input tokens as prompt tokens, the output tokens as completion tokens and their sum as the total |
| AnthropicClient.StreamAnthropicResponse | src/lib/clients/anthropic.ts:30-71 | the SDK is asked exactly when a key exists, with the request above; the callbacks receive the emission above |
| GoogleClient.Params | src/lib/clients/google.ts:44-50 | the model, a system instruction exactly for a non-empty system prompt, and `maxOutputTokens` exactly when a limit is given |
| GoogleClient.ReadStream | src/lib/clients/google.ts:54-61 | the loop forwards the non-empty texts, and its running total is the whole streamed text |
| GoogleClient.GoogleEmission | src/lib/clients/google.ts:37-74 | unconfigured: one error; otherwise the non-empty texts, then an error with the thrown message, or done with the usage metadata (missing counts as 0) |
| GoogleClient.StreamGoogleResponse | src/lib/clients/google.ts:28-75 | the SDK is asked exactly when a key exists, with those parameters and the user prompt; the callbacks receive the emission above |
| ExecuteRoute.ValidModels | src/app/api/execute/route.ts:30-32 | only registered models remain |
| ExecuteRoute.ValidModelsMembers | src/app/api/execute/route.ts:30-32 | a selection survives exactly when it was requested and its id is registered |
| ExecuteRoute.ValidModelsAppend | src/app/api/execute/route.ts:30-32 | the filter keeps the request order |
| ExecuteRoute.ValidModelsKeepsRegistered | src/app/api/execute/route.ts:30-32 | a selection whose models are all registered passes the filter unchanged |
| ExecuteRoute.AdmitsRegisteredSelection | src/app/api/execute/route.ts:10-36 | the body the client sends, with non-empty prompts and registered models, is admitted with exactly that selection, in order |
| ExecuteRoute.Admit | src/app/api/execute/route.ts:10-36 | 401 without a session, 400 for a body that is not JSON, missing fields (exactly as the code checks them) or no registered model; otherwise admitted with both prompts non-empty and the registered selections |
| ExecuteRoute.Frame | src/app/api/execute/route.ts:42-45 | one event is `data: `, the encoded chunk and a blank line |
| ExecuteRoute.AdapterFor | src/app/api/execute/route.ts:93-126 | each of the three providers selects its own adapter, and any other string none |
| ExecuteRoute.Dispatch | src/app/api/execute/route.ts:93-126 | a known provider's callbacks get its adapter's emission; an unknown one gets the single `Unknown provider: …` error |
| ExecuteRoute.Tagged | src/app/api/execute/route.ts:59-90 | every callback becomes one chunk with the model's id: content chunks in order, then one done chunk (finish reason `stop`, usage, latency) or one error chunk (message, latency) |
| ExecuteRoute.TaggedWellFormed | src/app/api/execute/route.ts:58-90 | each model's chunks are content chunks followed by exactly one terminal chunk |
| ExecuteRoute.StreamsWellFormed | src/app/api/execute/route.ts:50-130 | every valid model contributes a well-formed sequence of chunks tagged with its own id; a model of an unknown provider contributes the single unknown-provider error |
| ExecuteRoute.Post | src/app/api/execute/route.ts:8-147 | a refused request gets its status and text; an admitted one streams the chunks of every valid model, in the order they were selected |
| ExecuteRoute.InterleaveProjection | src/app/api/execute/route.ts:48-136 | in every interleaving each model's chunks appear in their own order: the model's share of the output is a prefix of its own sequence, as long as its turns allowed |
| ExecuteRoute.StepProjection | src/app/api/execute/route.ts:58-90 | one callback of model j extends only model j's share of the output, by exactly its next chunk |
| ExecuteRoute.Multiplex | src/app/api/execute/route.ts:132-136 | the loop sends what the interleaving specifies, and it closes the stream exactly when every model has sent all its chunks |
| ExecuteRoute.FairScheduleCloses | src/app/api/execute/route.ts:133-136 | when each model gets enough turns, every model finishes, so `Promise.all` settles |
| LineBuffer.Split | src/hooks/use-execution.ts:92 | `split("\n")` yields at least one part, and no part contains a newline |
| LineBuffer.GlueSplit | src/hooks/use-execution.ts:92 | joining the parts with newlines gives back the original text |
| LineBuffer.LinesUnique | src/hooks/use-execution.ts:92-93 | the complete lines and the kept tail are the only decomposition into newline-free lines, each terminated, plus a newline-free rest |
| LineBuffer.LinesRestDecompose | src/hooks/use-execution.ts:92-93 | the complete lines, each with its newline, followed by the kept tail, are exactly the buffered text |
| LineBuffer.LinesAppend | src/hooks/use-execution.ts:89-93 | appending a piece adds the lines completed by the old tail plus the piece, and keeps the new tail |
| LineBuffer.FeedAllIsSplit | src/hooks/use-execution.ts:82-93 | feeding pieces one by one yields the lines and the tail of the whole concatenated text |
| LineBuffer.RechunkingInvariant | src/hooks/use-execution.ts:82-93 | two ways of splitting the same bytes into pieces yield the same lines and the same tail |
| Responses.Set | src/hooks/use-execution.ts:102-106 | a `Map.set` updates the entry and appends the key only when it is new |
| Responses.InitTableEntries | src/hooks/use-execution.ts:41-50 | the initial table has one streaming, empty entry for each selected model id and no other |
| Responses.UpdateEntry | src/hooks/use-execution.ts:105-126 | a chunk that is not non-empty content, done or error leaves the entry unchanged |
| Responses.ApplyChunkLocal | src/hooks/use-execution.ts:101-128 | a chunk changes only its own model's entry, and adds that key only when the chunk changes something |
| Responses.ApplyChunksLocal | src/hooks/use-execution.ts:101-128 | after any sequence of chunks, a model's entry is its initial entry folded over exactly the chunks tagged with its id |
| Responses.ApplyChunksKeys | src/hooks/use-execution.ts:101-128 | keys are never removed, and a new key comes only from some chunk's model id |
| Responses.FoldEntryContent | src/hooks/use-execution.ts:105-109 | the content of an entry is its old content followed by the content chunks, in order |
| Responses.TerminalChunkEffect | src/hooks/use-execution.ts:110-126 | a done chunk completes the entry with usage and latency; an error chunk marks it failed with message and latency; content only appends |
| Responses.ParseLine | src/hooks/use-execution.ts:96-99 | only `data: ` lines are decoded, from the text after the prefix |
| Responses.ApplyLine | src/hooks/use-execution.ts:130-132 | a line that does not parse leaves the table unchanged |
| Responses.ApplyLinesAppend | src/hooks/use-execution.ts:95-134 | processing two batches of lines is processing their concatenation |
| Responses.FeedPiecesIsSplit | src/hooks/use-execution.ts:82-134 | the read loop's table is the table after the lines of the whole received text, and its buffer is that text's tail |
| Responses.FeedResultLines | src/hooks/use-execution.ts:82-134 | the read loop applies exactly the lines the line buffer completes |
| Responses.FailEntry | src/hooks/use-execution.ts:146-153 | a streaming entry becomes a failed, non-streaming entry with the message; others are kept |
| Responses.FailStreaming | src/hooks/use-execution.ts:143-156 | every entry is failed as above, with the keys and their order kept |
| Responses.MarkStreamingFailed | src/hooks/use-execution.ts:143-156 | the loop over the entries computes exactly that table |
| Responses.StreamAccumulator.constructor | src/hooks/use-execution.ts:78-80 | the reader starts with the given table and an empty buffer |
| Responses.StreamAccumulator.Feed | src/hooks/use-execution.ts:89-134 | one piece applies the lines it completes and keeps the new tail as the buffer |
| UseExecution.FailureMessage | src/hooks/use-execution.ts:151 | an `Error` yields its message, anything else `Unknown error` |
| UseExecution.AfterFailure | src/hooks/use-execution.ts:136-156 | an abort leaves the table alone; other failures keep its keys |
| UseExecution.RejectedRequestFailsAll | src/hooks/use-execution.ts:70-76 | a non-ok status or a missing body fails every selected model with `HTTP error: <status>` or `No response body` |
| UseExecution.AbortKeepsInit | src/hooks/use-execution.ts:137-140 | a cancelled fetch leaves every model in its initial streaming state |
| UseExecution.ResultIgnoresChunking | src/hooks/use-execution.ts:82-93 | the final table does not depend on how the stream was cut into reads |
| UseExecution.UnterminatedTailIgnored | src/hooks/use-execution.ts:85-93 | text after the last newline is never processed |
| UseExecution.AllCompleteMeaning | src/hooks/use-execution.ts:185-189 | an empty table, which has no responses, counts as complete, so a page with no run never shows the waiting message; otherwise every entry is complete or failed |
| UseExecution.FailureCompletes | src/hooks/use-execution.ts:143-156 | after a failure no entry is streaming: finished entries are kept, streaming ones fail |
| UseExecution.Execution.constructor | src/hooks/use-execution.ts:22-26 | not executing, an empty table, no controller |
| UseExecution.Execution.Execute | src/hooks/use-execution.ts:28-163 | the table ends as the specified result of the fetch, and the execution flag and controller are cleared |
| UseExecution.Execution.Cancel | src/hooks/use-execution.ts:165-171 | not executing, no controller, responses kept |
| UseExecution.Execution.Reset | src/hooks/use-execution.ts:173-176 | cancelled, with an empty table that has no responses and counts as all complete |
| UseExecution.Execution.GetResponseForModel | src/hooks/use-execution.ts:178-183 | the model's entry, or nothing exactly when the model has none |
| UseExecution.ReadStream | src/hooks/use-execution.ts:78-135 | the read loop yields the specified streamed table |
| UseExecution.BuildInitialTable | src/hooks/use-execution.ts:41-51 | the initialisation loop yields one fresh entry per selected id and nothing else |
| Arena.CanExecuteMeaning | src/components/arena.tsx:39 | execution is enabled exactly for a user prompt with a non-whitespace character, at least one model, no running execution and no reached guest limit |
| Arena.RejectionMessage | src/components/arena.tsx:77-88 | a 429 guest-limit reply fails with its own message or the default log-in text; any other failure with `HTTP error: <status>` |
| Arena.ArenaMatchesHook | src/components/arena.tsx:65-157 | the page's execution gives the same table as the hook, except that a guest-limit reply fails every selected model with the limit message |
| Arena.Refreshes | src/components/arena.tsx:79-85 | guest status is refreshed at most twice, and for a signed-in user exactly once on a guest-limit reply and never otherwise |
| Arena.RunRequest | src/components/arena.tsx:65-157 | the request yields the specified table and reports whether the guest limit was hit |
| Arena.ArenaState.constructor | src/components/arena.tsx:14-37 | empty responses, no evaluation, no controller, nothing refreshed |
| Arena.ArenaState.Execute | src/components/arena.tsx:41-166 | responses become the specified result for the selection at the time of the call; the evaluation is cleared; execution ends; prompts and selection are unchanged; refreshes are counted |
| Arena.ArenaState.HandleReset | src/components/arena.tsx:168-176 | aborted, not executing, empty responses, no evaluation; prompts and selection kept |
| Arena.ArenaState.HandleClearAll | src/components/arena.tsx:178-181 | as a reset, and both prompts become empty while the selection is kept |
| Arena.ArenaState.GetModelIdForSlot | src/components/arena.tsx:183-186 | an id exactly when the slot's model is registered, and then that model's id |
| Arena.ArenaState.GetResponseForModel | src/components/arena.tsx:188-190 | the model's entry, or nothing exactly when it has none |
| Arena.ModelIdForSlotMeaning | src/components/arena.tsx:183-186 | the id shown for a slot is the first selection of that slot, when it is registered |
| Prompts.SetSystemPrompt | src/hooks/use-prompts.ts:16-18 | only the system prompt changes |
| Prompts.SetUserPrompt | src/hooks/use-prompts.ts:20-22 | only the user prompt changes |
| Prompts.ClearPrompts | src/hooks/use-prompts.ts:24-26 | both prompts become empty |
| Prompts.EmptyInvalid | src/hooks/use-prompts.ts:24-32 | cleared prompts are not valid |
| Prompts.LoadPrompts | src/hooks/use-prompts.ts:28-30 | the loaded prompts replace both fields |
| Prompts.IsValidMeaning | src/hooks/use-prompts.ts:32 | the prompts are valid exactly when the user prompt has a character that is not whitespace; the system prompt plays no part |
| Prompts.UnicodeSpacesInvalid | src/hooks/use-prompts.ts:32 | a user prompt of Unicode space separators only (ideographic space, byte order mark, line separator, medium mathematical space) is not valid |
| Prompts.ValidityUnderTransitions | src/hooks/use-prompts.ts:16-32 | setting the system prompt never changes validity; after setting the user prompt, validity depends on the new value alone |
| ModelSelection.WithoutSlot | src/hooks/use-model-selection.ts:11 | after filtering, no selection of the slot remains |
| ModelSelection.OfSlotWithout | src/hooks/use-model-selection.ts:11 | filtering one slot removes that slot's selections and keeps every other slot's, in order |
| ModelSelection.SortBySlotSorted | src/hooks/use-model-selection.ts:13 | the stable sort by slot is sorted and keeps each slot's selections in their order |
| ModelSelection.SortBySlotPermutation | src/hooks/use-model-selection.ts:13 | sorting is a permutation |
| ModelSelection.GroupsPartition | src/hooks/use-model-selection.ts:13 | the three slot groups together are exactly the selection, as a multiset |
| ModelSelection.SelectModelEffect | src/hooks/use-model-selection.ts:9-17 | selecting a non-empty id makes it the slot's only entry, keeps every other slot's entries, sorts the list and keeps at most one entry per slot |
| ModelSelection.ClearModelEffect | src/hooks/use-model-selection.ts:19-21 | clearing removes the slot's entries, keeps every other entry, and is what selecting the empty id does |
| ModelSelection.ClearAllModels | src/hooks/use-model-selection.ts:23-25 | no models remain |
| ModelSelection.DistinctSlotsByCount | src/hooks/use-model-selection.ts:9-17 | distinct slots is the same as at most one entry per slot |
| ModelSelection.GetModelForSlot | src/hooks/use-model-selection.ts:27-34 | the definition of the slot's first selection, or nothing exactly when the slot is empty or its id is unregistered |
| ArenaContext.SetSystemPromptIn | src/contexts/arena-context.tsx:47-49 | only the system prompt changes in the context |
| ArenaContext.SetUserPromptIn | src/contexts/arena-context.tsx:51-53 | only the user prompt changes in the context |
| ArenaContext.ClearPromptsIn | src/contexts/arena-context.tsx:55-57 | both prompts become empty, and the selection and flag are untouched |
| ArenaContext.SelectModelIn | src/contexts/arena-context.tsx:64-72 | a non-empty id owns its slot alone in a sorted selection; an empty id clears the slot; other slots and the prompts are kept |
| ArenaContext.ClearModelIn | src/contexts/arena-context.tsx:74-76 | the slot is cleared and the others kept |
| ArenaContext.LoadModels | src/contexts/arena-context.tsx:78-80 | the loaded models, sorted by slot, as a permutation that keeps each slot's order |
| ArenaContext.SetIsExecuting | src/contexts/arena-context.tsx:94 | only the execution flag changes |
| ArenaContext.ContextFlags | src/contexts/arena-context.tsx:59-91 | `isValid` holds for a user prompt with a non-whitespace character; `hasModels` holds for a non-empty selection |
| EvaluateRoute.DisplayName | src/app/api/evaluate/route.ts:51-52 | a registered id is shown by its model's name, an unknown id as itself |
| EvaluateRoute.RenderResponse | src/app/api/evaluate/route.ts:53 | a `### ` heading with the display name, a newline, then the content verbatim |
| EvaluateRoute.RenderAll | src/app/api/evaluate/route.ts:49-54 | one rendering per response, in input order |
| EvaluateRoute.ModelResponsesLength | src/app/api/evaluate/route.ts:49-55 | n responses are joined with exactly n - 1 separators |
| EvaluateRoute.ModelResponsesSnoc | src/app/api/evaluate/route.ts:49-55 | the responses appear in input order, separated by the `---` rule |
| EvaluateRoute.SystemOrDefault | src/app/api/evaluate/route.ts:60 | a missing or empty system prompt is replaced by the placeholder |
| EvaluateRoute.EvaluationPromptEmbeds | src/app/api/evaluate/route.ts:57-92 | the judge prompt starts with the preamble and the system prompt, embeds the user prompt and all responses, and ends with the fixed task |
| EvaluateRoute.Post | src/app/api/evaluate/route.ts:15-117 | 401, 400 for a body that is not JSON, 400 for fewer than two responses or no prompt, 500 without a Google client; the judge is asked only when all checks pass |
| EvaluateRoute.AdmittedRequestAsksJudge | src/app/api/evaluate/route.ts:94-116 | an admitted request asks `gemini-3-flash-preview` once with the built prompt; it replies with the judge's text and the usage read from its metadata, or with a 500 carrying the thrown message (`Evaluation failed` for a non-`Error` throw) |
| EvaluateRoute.RegisteredShownByName | src/app/api/evaluate/route.ts:51-52 | every registered model is shown by its name |
| EvaluatorPanel.SuccessfulAmongExact | src/components/evaluator-panel.tsx:27-29 | an item is offered exactly when its entry is complete, error-free and non-empty, with that content, and each model at most once |
| EvaluatorPanel.SuccessfulResponsesExact | src/components/evaluator-panel.tsx:27-29 | the same for the table in insertion order, never more items than entries |
| EvaluatorPanel.RequestBody | src/components/evaluator-panel.tsx:45-49 | the user prompt as original prompt, the system prompt, and the successful responses |
| EvaluatorPanel.EnabledRequestAdmitted | src/components/evaluator-panel.tsx:31-32 | what an enabled panel sends passes the route's check exactly when the user prompt is non-empty |
| EvaluatorPanel.StartEvaluation | src/components/evaluator-panel.tsx:35-37 | evaluating, with the error and the old evaluation cleared |
| EvaluatorPanel.FinishEvaluation | src/components/evaluator-panel.tsx:39-63 | evaluation ends; an error exactly unless an ok reply parsed: for a reply that is not ok, the server's error or `Evaluation failed`; when `fetch` or `response.json()` throws, the thrown message, or `Evaluation failed` for a non-`Error` throw; on success the reply's evaluation; never both |
| EvaluatorPanel.Display | src/components/evaluator-panel.tsx:92-115 | waiting exactly while responses are incomplete; then the need-two message, the error with its text, the evaluation with its text or the invitation, in that priority, each exactly when the earlier ones do not apply |
| EvaluatorPanel.EnabledShowsResult | src/components/evaluator-panel.tsx:31-32 | when evaluation is enabled the panel shows neither the waiting nor the need-two message |
| GuestRateLimit.DigitRun | src/lib/guest-rate-limit.ts:10 | the length of the leading run of digits: all of them digits, and the next character not one |
| GuestRateLimit.ParseInt | src/lib/guest-rate-limit.ts:10 | a number is parsed only when the text has a digit |
| GuestRateLimit.ParseIntOfDecimal | src/lib/guest-rate-limit.ts:10 | the decimal text of n parses back to n |
| GuestRateLimit.GuestExecutionLimit | src/lib/guest-rate-limit.ts:7-16 | a positive parsed setting is the limit; a missing, empty, unparsable or non-positive one gives 20 |
| GuestRateLimit.ConfiguredLimit | src/lib/guest-rate-limit.ts:7-16 | a positive limit written in decimal is taken as configured |
| GuestRateLimit.RemainingExecutions | src/lib/guest-rate-limit.ts:92-100 | the remainder never exceeds the limit, is 0 exactly when the limit is exceeded, and otherwise completes the larger count to the limit |
| GuestRateLimit.FirstField | src/lib/guest-rate-limit.ts:52 | the text before the first comma: a comma-free prefix, followed by a comma when shorter |
| GuestRateLimit.ClientIP | src/lib/guest-rate-limit.ts:47-62 | the trimmed first forwarded address, else the trimmed real IP, else the client-ip header, else `unknown` |
| GuestRateLimit.ForwardedIPShape | src/lib/guest-rate-limit.ts:49-53 | a forwarded address has no comma and no surrounding whitespace |
| GuestRateLimit.Cleaned | src/lib/guest-rate-limit.ts:35-42 | exactly today's records remain, unchanged |
| GuestRateLimit.CountOf | src/lib/guest-rate-limit.ts:64-76 | an unknown address or a record of another day counts 0, and today's record its count |
| GuestRateLimit.AfterCount | src/lib/guest-rate-limit.ts:64-76 | reading a stale record deletes it, and nothing else changes |
| GuestRateLimit.AfterIncrement | src/lib/guest-rate-limit.ts:78-90 | the address's count for today goes up by one from its current count, and no other address changes |
| GuestRateLimit.IncrementsAccumulate | src/lib/guest-rate-limit.ts:78-90 | n increments on one day raise the count by n |
| GuestRateLimit.CountIsStable | src/lib/guest-rate-limit.ts:64-76 | reading a count never changes what any later read on the same day returns |
| GuestRateLimit.IPStore.constructor | src/lib/guest-rate-limit.ts:32 | the store starts empty |
| GuestRateLimit.IPStore.GetIPExecutionCount | src/lib/guest-rate-limit.ts:64-76 | returns the count for today and deletes a stale record |
| GuestRateLimit.IPStore.IncrementIPExecutionCount | src/lib/guest-rate-limit.ts:78-90 | the store and the result are the specified increment |
| GuestRateLimit.IPStore.CleanupOldEntries | src/lib/guest-rate-limit.ts:35-42 | the loop deletes exactly the records of other days |
| GuestStatus.SessionCount | src/app/api/auth/guest-status/route.ts:31-34 | the session's count counts only on its own day, and a missing count is 0 |
| GuestStatus.QuotaOf | src/app/api/auth/guest-status/route.ts:36-47 | the limit, the larger of the two counts as used, the remainder, and `limitReached` exactly when either count reaches the limit |
| GuestStatus.StatusOf | src/app/api/auth/guest-status/route.ts:11-55 | 500 when the session fails, 401 unauthenticated, unlimited for a signed-in user, and otherwise the guest quota |
| GuestStatus.StaleSessionIgnored | src/app/api/auth/guest-status/route.ts:31-37 | a session count from another day is ignored, so only the IP count can reach the limit |
| GuestStatus.Get | src/app/api/auth/guest-status/route.ts:11-55 | the reply is the specified status over the address's count, which is read only for a guest |
| Middleware.Decide | src/middleware.ts:9-32 | the session is read exactly for non-public, non-static paths, and a redirect to `/login` happens exactly when such a path has no session |
| Middleware.LoginNeverRedirects | src/middleware.ts:7-15 | every path under the two public routes passes without reading the session |
| Middleware.DottedPathsPass | src/middleware.ts:18-20 | any path containing a dot passes without reading the session |
| EndToEnd.FrameLinesTerminated | src/app/api/execute/route.ts:42-45 | the frames are the lines `data: <json>` and blank lines, each newline-terminated |
| EndToEnd.FramesSplit | src/hooks/use-execution.ts:92-93 | the client's line buffer splits the route's frames into exactly those lines, with an empty tail |
| EndToEnd.FramesDecoded | src/hooks/use-execution.ts:95-132 | processing the route's frames applies exactly the route's chunks, where the JSON round trip holds |
| EndToEnd.FrameLinesApplied | src/hooks/use-execution.ts:95-132 | each frame's data line applies its chunk, and its blank line nothing |
| EndToEnd.InterleaveTags | src/app/api/execute/route.ts:58-90 | every sent chunk carries the id of the model it came from |
| EndToEnd.ForModelProject | src/hooks/use-execution.ts:101-128 | with distinct ids, the chunks the client attributes to a model are exactly that model's share of the stream |
| EndToEnd.ContentOfTagged | src/hooks/use-execution.ts:105-109 | the content of a prefix of a model's chunks is the concatenation of the texts emitted so far |
| EndToEnd.StreamedIsApplied | src/hooks/use-execution.ts:78-135 | however the bytes arrive, the client's table is the initial table with the route's chunks applied |
| EndToEnd.InterleavedContent | src/hooks/use-execution.ts:101-128 | in any interleaving, each model's entry holds that model's chunks so far, applied in order |
| EndToEnd.ClientSeesOwnContent | src/hooks/use-execution.ts:105-109 | at any point of the stream each model's content is the concatenation of its texts sent so far |
| EndToEnd.FinishedClientSeesAll | src/app/api/execute/route.ts:133-136 | once a model has sent everything, the client's content for it is exactly the text its adapter emitted |
| TestModels.AsWrittenLimits | scripts/test-models.ts:39-104 | on a `null` limit the script omits OpenAI's and Google's limits and sends 100 to Anthropic |
| TestModels.AsWrittenLimitsBroken | scripts/test-models.ts:113-119 | as written, every registered model is tested with `max_tokens: 10` on OpenAI and a `NaN` limit on Anthropic and Google |
| TestModels.TestLimits | scripts/test-models.ts:39-104 | OpenAI sends 10 exactly when a limit exists; Anthropic's limit is at most 100 and is the given limit capped at 100; Google's limit exists exactly when given, and is at most 100 |
| TestModels.TestLimitsAgree | scripts/test-models.ts:39-104 | on a defined limit the corrected limits are the ones the script sends |
| TestModels.ProviderTest | scripts/test-models.ts:39-64 | no client: `No API key configured`; otherwise the answer's text or the thrown message |
| TestModels.CallFor | scripts/test-models.ts:111-123 | each of `openai`, `anthropic` and `google` runs that provider's test with that provider's key; an unknown provider yields the `Unknown provider` error |
| TestModels.TestModel | scripts/test-models.ts:106-148 | skipped exactly when the error mentions a missing key, without latency or response; a failure exactly for another non-empty error; the response cut to 50 characters |
| TestModels.MissingKeySkips | scripts/test-models.ts:127-136 | a model whose provider has no key is skipped, whatever the SDK would do |
| TestModels.UnknownProviderFails | scripts/test-models.ts:121-122 | a model of an unknown provider fails with `Unknown provider` |
| TestModels.TestEach | scripts/test-models.ts:201-211 | one result per model, in order, each the test of that model |
| TestModels.TestAll | scripts/test-models.ts:201-211 | every registered model is tested once, in registry order |
| TestModels.NoKeysAllSkipped | scripts/test-models.ts:127-136 | with no keys every registered model is skipped |
| TestModels.StatusCountsSum | scripts/test-models.ts:165-167 | the success, error and skipped counts add up to the number of results |
| TestModels.Providers | scripts/test-models.ts:156-161 | each provider is listed once, exactly when some result has it |
| TestModels.GroupByProvider | scripts/test-models.ts:156-161 | the loop builds one group per provider, holding exactly that provider's results in order |
| TestModels.GroupsCoverResults | scripts/test-models.ts:156-167 | the groups together hold every result exactly once |

## Left out

- Concurrency: the adapters run as concurrent promises. The model takes their
  callbacks in any order given by a schedule (`ExecuteRoute.Interleave`). It leaves
  out actual timing, back-pressure and what happens when a client disconnects.
- The SDKs of OpenAI, Anthropic and Google are not modelled. What each stream yields
  is an input (a list of events, and a throw or a final message).
- JSON and the SSE transport: `JSON.stringify` and `JSON.parse` are parameters `enc`
  and `dec`. The end-to-end lemmas require that they round-trip and that the encoding
  has no newline (`EndToEnd.LawfulCodec`). `TextDecoder` is left out: the reader
  receives already decoded text pieces.
- Clocks and dates: `Date.now()` latencies are inputs (`latency`), and
  `getCurrentDateString()` is an input (`today`). The hourly `setInterval` cleanup is
  the method `GuestRateLimit.IPStore.CleanupOldEntries`, called explicitly.
- Sessions and environment: iron-session cookies, `getSession()` and `process.env`
  are inputs: an authentication flag, an optional session, an optional setting and
  key presence.
  - `GuestRateLimit.GuestExecutionLimit` models `getGuestExecutionLimit()`.
  - The constant computed from it at module load is passed as the parameter `limit`.
- Presentation: React rendering, components, sounds, console output and report
  formatting in `scripts/test-models.ts` are left out. The panel's view is modelled as
  the choice of message (`EvaluatorPanel.Display`).
- Other routes and files, which are not part of this model:
  - the login, guest and status routes;
  - saved configurations (`src/lib/config-storage.ts`, `src/app/api/configs`);
  - the auth context;
  - `src/lib/env.ts`;
  - the middleware `matcher`, because Next.js applies it before `middleware` runs.
- GuestRateLimit.ParseInt: models `parseInt(s, 10)` as leading whitespace, an optional
  sign and a run of decimal digits. The whitespace is ECMAScript's WhiteSpace and
  LineTerminator set (`Util.IsWhitespace`), the same set `trim()` removes. The
  precision loss beyond 2^53 is left out.
- ArenaContext.LoadModels: `models.sort` also sorts the caller's array in place. The
  model returns the sorted copy and leaves out that aliasing.
- ArenaContext.ClearPromptsIn and Arena.ArenaState.HandleClearAll: they state that
  the prompts become empty. That empty prompts are invalid is the separate lemma
  `Prompts.EmptyInvalid`.
- Responses.UpdateEntry: a chunk for a model that has no entry is spread from
  `undefined` in the source. The model starts such an entry from a blank entry
  (`Responses.Blank`: empty content, all flags false). Every consumer modelled here
  sees the same result.
- Adapter.LazyClient.Get: the cached client object is modelled by the key it was
  created with.
- ExecuteRoute.Admit and EvaluateRoute.Post: the body is a parsed object whose fields
  are present or missing. A JSON body that is not an object is left out. For `null`
  the destructuring throws outside the `try`, and Next.js answers 500
  (`src/app/api/execute/route.ts:23`, `src/app/api/evaluate/route.ts:30`). The
  JavaScript types of the fields are also left out, e.g. a `models` that is not an
  array.
- TestModels.TestModel: the preview cuts the response at 50 Dafny characters.
  `slice(0, 50)` counts UTF-16 code units, so the two differ for text outside the
  Basic Multilingual Plane.
- ExecuteRoute.Multiplex: it models the order in which chunks are queued on the
  stream. It does not model `Promise.all` waiting, which
  `ExecuteRoute.FairScheduleCloses` covers as a fairness condition.

## Findings

| source | as written | input that shows it | evidently intended | confidence | as-written member | corrected member |
|---|---|---|---|---|---|---|
| scripts/test-models.ts:113-119 | `testModel` passes `model.maxOutputTokens`, a property `ModelDefinition` (src/types/models.ts:3-9) does not declare, so every test reads `undefined`. OpenAI gets `max_tokens: 10` (line 54). Anthropic gets `Math.min(undefined, 100)`, which is `NaN` (line 76). Google gets a `NaN` `maxOutputTokens` (line 96). | any registry entry, e.g. `claude-sonnet-4-5-20250929` | send the model's own limit, capped at 100, and leave it out only for a model without one | high (not executed) | TestModels.AsWrittenLimitsBroken | TestModels.TestLimits |
