/** The OpenAI adapter (src/lib/clients/openai.ts): reasoning-model detection, message
    construction, the request's optional `max_tokens`, and the stream loop that emits
    text deltas and keeps the last usage report. */
module OpenAIClient {
  import opened Util
  import opened Models
  import opened Adapter

  const NOT_CONFIGURED := "OpenAI client not configured"

  /** `isReasoningModel(model)` */
  predicate IsReasoningModel(model: string) {
    StartsWith(model, "o1") || StartsWith(model, "o3") || StartsWith(model, "gpt-5")
  }

  /** Of the registered OpenAI models, exactly `o1` and `o1-mini` are reasoning models. */
  lemma RegistryReasoningModels()
    ensures forall k :: 0 <= k < |AVAILABLE_MODELS| ==>
      (IsReasoningModel(AVAILABLE_MODELS[k].id) <==> AVAILABLE_MODELS[k].id == "o1" || AVAILABLE_MODELS[k].id == "o1-mini")
  {
    forall k | 0 <= k < |AVAILABLE_MODELS|
      ensures IsReasoningModel(AVAILABLE_MODELS[k].id) <==> AVAILABLE_MODELS[k].id == "o1" || AVAILABLE_MODELS[k].id == "o1-mini"
    {
      var id := AVAILABLE_MODELS[k].id;
      ReasoningPrefix(id);
    }
  }

  /** The three prefixes, character by character. */
  lemma ReasoningPrefix(id: string)
    ensures IsReasoningModel(id) <==>
      (|id| >= 2 && id[0] == 'o' && (id[1] == '1' || id[1] == '3'))
      || (|id| >= 5 && id[0] == 'g' && id[1] == 'p' && id[2] == 't' && id[3] == '-' && id[4] == '5')
  {
    if |id| >= 2 && id[0] == 'o' && (id[1] == '1' || id[1] == '3') {
      assert id[..2] == "o1" || id[..2] == "o3";
    }
    if |id| >= 5 && id[0] == 'g' && id[1] == 'p' && id[2] == 't' && id[3] == '-' && id[4] == '5' {
      assert id[..5] == "gpt-5";
    }
  }

  /** The `messages` array. */
  function Messages(model: string, systemPrompt: string, userPrompt: string): (ms: seq<Message>)
    ensures |ms| >= 1 && ms[|ms| - 1].role == UserRole
    ensures forall i :: 0 <= i < |ms| - 1 ==> ms[i].role == SystemRole
    ensures |ms| == (if !IsReasoningModel(model) && systemPrompt != "" then 2 else 1)
    ensures |ms| == 2 ==> ms[0].content == systemPrompt
    ensures !IsReasoningModel(model) || systemPrompt == "" ==> ms[|ms| - 1].content == userPrompt
    ensures IsReasoningModel(model) && systemPrompt != "" ==>
      (StartsWith(ms[0].content, systemPrompt + "\n\n") && ms[0].content[|systemPrompt| + 2..] == userPrompt)
  {
    if IsReasoningModel(model) then
      [Message(UserRole, if systemPrompt != "" then systemPrompt + "\n\n" + userPrompt else userPrompt)]
    else
      (if systemPrompt != "" then [Message(SystemRole, systemPrompt)] else []) + [Message(UserRole, userPrompt)]
  }

  /** The `chat.completions.create` parameters; `stream` and `include_usage` are always on. */
  datatype ChatRequest = ChatRequest(model: string, messages: seq<Message>, maxTokens: Option<int>)

  /** `max_tokens` is sent exactly when `maxTokens` is not null, with its value. */
  function Request(model: string, systemPrompt: string, userPrompt: string, maxTokens: Option<int>): (r: ChatRequest)
    ensures r.model == model && r.messages == Messages(model, systemPrompt, userPrompt)
    ensures r.maxTokens.Some? <==> maxTokens.Some?
    ensures r.maxTokens.Some? ==> r.maxTokens.value == maxTokens.value
  {
    ChatRequest(model, Messages(model, systemPrompt, userPrompt), maxTokens)
  }

  /** One streamed chunk: `choices[0]?.delta?.content` and `usage`. */
  datatype ChatChunk = ChatChunk(delta: Option<string>, usage: Option<Usage>)

  /** The stream as delivered: its chunks, then possibly a throw (a throw from `create`
      comes before any chunk). */
  datatype ChatRun = ChatRun(events: seq<ChatChunk>, thrown: Option<Thrown>)

  /** The delta texts, a missing delta as empty. */
  function DeltaTexts(events: seq<ChatChunk>): (r: seq<string>)
    ensures |r| == |events|
    ensures forall i :: 0 <= i < |events| ==> r[i] == events[i].delta.GetOr("")
  {
    if |events| == 0 then [] else DeltaTexts(events[..|events| - 1]) + [events[|events| - 1].delta.GetOr("")]
  }

  /** The usage of the last chunk that carries one, or zeros. */
  function LastUsage(events: seq<ChatChunk>): Usage {
    if |events| == 0 then Usage(0, 0, 0)
    else if events[|events| - 1].usage.Some? then events[|events| - 1].usage.value
    else LastUsage(events[..|events| - 1])
  }

  /** Chunk i reports usage and no later chunk does. */
  predicate IsLastReport(events: seq<ChatChunk>, i: int) {
    0 <= i < |events| && events[i].usage.Some? && forall j :: i < j < |events| ==> events[j].usage.None?
  }

  /** The final usage is all zeros when no chunk reports usage, and otherwise the report
      of the last chunk that has one. */
  lemma {:induction false} LastUsageMeaning(events: seq<ChatChunk>)
    ensures (forall i :: 0 <= i < |events| ==> events[i].usage.None?) ==> LastUsage(events) == Usage(0, 0, 0)
    ensures forall i :: IsLastReport(events, i) ==> LastUsage(events) == events[i].usage.value
  {
    if |events| > 0 {
      var front := events[..|events| - 1];
      LastUsageMeaning(front);
      forall i | IsLastReport(events, i)
        ensures LastUsage(events) == events[i].usage.value
      {
        if i < |events| - 1 {
          assert events[|events| - 1].usage.None?;
          assert front[i] == events[i];
          assert forall j :: i < j < |front| ==> front[j] == events[j];
        }
      }
      if forall i :: 0 <= i < |events| ==> events[i].usage.None? {
        assert forall i :: 0 <= i < |front| ==> front[i] == events[i];
      }
    }
  }

  /** The `for await` loop: emits each non-empty delta and remembers the last usage. */
  method ReadStream(events: seq<ChatChunk>) returns (chunks: seq<string>, usage: Usage)
    ensures chunks == NonEmpty(DeltaTexts(events)) && usage == LastUsage(events)
  {
    chunks := [];
    usage := Usage(0, 0, 0);
    for i := 0 to |events|
      invariant chunks == NonEmpty(DeltaTexts(events[..i]))
      invariant usage == LastUsage(events[..i])
    {
      assert events[..i + 1][..i] == events[..i];
      var content := events[i].delta;
      if content.Some? && content.value != "" {
        chunks := chunks + [content.value];
      }
      if events[i].usage.Some? {
        usage := events[i].usage.value;
      }
    }
    assert events[..|events|] == events;
  }

  /** What the adapter calls back with, given whether the client exists. */
  function OpenAIEmission(configured: bool, run: ChatRun): (em: Emission)
    ensures !configured ==> em == NotConfigured(NOT_CONFIGURED)
    ensures configured ==> em.chunks == NonEmpty(DeltaTexts(run.events))
    ensures configured && run.thrown.Some? ==> em.end == Failed(CaughtMessage(run.thrown.value))
    ensures configured && run.thrown.None? ==> em.end == Done(LastUsage(run.events))
  {
    if !configured then NotConfigured(NOT_CONFIGURED)
    else Emission(NonEmpty(DeltaTexts(run.events)),
                  if run.thrown.Some? then Failed(CaughtMessage(run.thrown.value)) else Done(LastUsage(run.events)))
  }

  /** The text a configured adapter emits is exactly the stream's delta text. */
  lemma EmittedText(run: ChatRun)
    ensures Concat(OpenAIEmission(true, run).chunks) == Concat(DeltaTexts(run.events))
  {
    NonEmptyText(DeltaTexts(run.events));
  }

  /** `streamOpenAIResponse(options)` against the module's client singleton; `key` is
      `env.openaiApiKey`. The request is `None` when no request is made. */
  method StreamOpenAIResponse(client: LazyClient, key: Option<string>, model: string, systemPrompt: string,
                              userPrompt: string, maxTokens: Option<int>, run: ChatRun)
    returns (request: Option<ChatRequest>, em: Emission)
    requires client.Valid()
    modifies client
    ensures client.Valid()
    ensures client.constructions == old(client.constructions) || (old(client.constructions) == 0 && client.constructions == 1)
    ensures em == OpenAIEmission(key.Some? && key.value != "", run)
    ensures request.Some? <==> key.Some? && key.value != ""
    ensures request.Some? ==> request.value == Request(model, systemPrompt, userPrompt, maxTokens)
  {
    var c := client.Get(key);
    if c.None? {
      return None, NotConfigured(NOT_CONFIGURED);
    }
    request := Some(Request(model, systemPrompt, userPrompt, maxTokens));
    var chunks, usage := ReadStream(run.events);
    if run.thrown.Some? {
      em := Emission(chunks, Failed(CaughtMessage(run.thrown.value)));
    } else {
      em := Emission(chunks, Done(usage));
    }
  }
}
