/** The Anthropic adapter (src/lib/clients/anthropic.ts): the request shape with its
    mandatory `max_tokens`, the text-delta filter of the event stream and the usage sum
    of the final message. */
module AnthropicClient {
  import opened Util
  import opened Models
  import opened Adapter

  const NOT_CONFIGURED := "Anthropic client not configured"
  const DEFAULT_MAX_TOKENS := 8192

  /** The `messages.stream` parameters. */
  datatype MessageRequest = MessageRequest(model: string, maxTokens: int, system: Option<string>, messages: seq<Message>)

  /** `max_tokens` is always present (the given value or 8192), `system` only for a
      non-empty system prompt, and the user prompt is the one message. */
  function Request(model: string, systemPrompt: string, userPrompt: string, maxTokens: Option<int>): (r: MessageRequest)
    ensures r.model == model
    ensures maxTokens.Some? ==> r.maxTokens == maxTokens.value
    ensures maxTokens.None? ==> r.maxTokens == DEFAULT_MAX_TOKENS
    ensures r.system.Some? <==> systemPrompt != ""
    ensures r.system.Some? ==> r.system.value == systemPrompt
    ensures r.messages == [Message(UserRole, userPrompt)]
  {
    MessageRequest(model, maxTokens.GetOr(DEFAULT_MAX_TOKENS), if systemPrompt != "" then Some(systemPrompt) else None,
                   [Message(UserRole, userPrompt)])
  }

  /** `event.delta` of a `content_block_delta` event. */
  datatype Delta = TextDelta(text: string) | OtherDelta

  /** A stream event: a `content_block_delta` or any other event type. */
  datatype StreamEvent = ContentBlockDelta(delta: Delta) | OtherEvent

  /** How the stream ends: `finalMessage()` with its usage, or a throw. */
  datatype StreamEnd = FinalMessage(inputTokens: nat, outputTokens: nat) | StreamThrew(error: Thrown)

  datatype MessageRun = MessageRun(events: seq<StreamEvent>, end: StreamEnd)

  predicate IsTextDelta(e: StreamEvent) {
    e.ContentBlockDelta? && e.delta.TextDelta?
  }

  /** The texts of the text-delta events, in order; empty texts are passed on too. */
  function TextDeltas(events: seq<StreamEvent>): (r: seq<string>)
    ensures |r| <= |events|
  {
    if |events| == 0 then []
    else
      var front := TextDeltas(events[..|events| - 1]);
      var e := events[|events| - 1];
      if IsTextDelta(e) then front + [e.delta.text] else front
  }

  /** The filter is a homomorphism: one event contributes its text if it is a text delta
      and nothing otherwise, and a stream contributes its parts' texts in order. */
  lemma {:induction false} TextDeltasAppend(a: seq<StreamEvent>, b: seq<StreamEvent>)
    ensures TextDeltas(a + b) == TextDeltas(a) + TextDeltas(b)
    ensures forall e :: TextDeltas([e]) == if IsTextDelta(e) then [e.delta.text] else []
  {
    if |b| > 0 {
      var front := b[..|b| - 1];
      assert (a + b)[..|a + b| - 1] == a + front;
      TextDeltasAppend(a, front);
    } else {
      assert a + b == a;
    }
    forall e ensures TextDeltas([e]) == if IsTextDelta(e) then [e.delta.text] else [] {
      assert [e][..0] == [];
    }
  }

  /** The `for await` loop. */
  method ReadStream(events: seq<StreamEvent>) returns (chunks: seq<string>)
    ensures chunks == TextDeltas(events)
  {
    chunks := [];
    for i := 0 to |events|
      invariant chunks == TextDeltas(events[..i])
    {
      assert events[..i + 1][..i] == events[..i];
      var event := events[i];
      if event.ContentBlockDelta? && event.delta.TextDelta? {
        chunks := chunks + [event.delta.text];
      }
    }
    assert events[..|events|] == events;
  }

  /** The usage reported from the final message. */
  function FinalUsage(inputTokens: nat, outputTokens: nat): (u: Usage)
    ensures u.promptTokens == inputTokens && u.completionTokens == outputTokens
    ensures u.totalTokens == u.promptTokens + u.completionTokens
  {
    Usage(inputTokens, outputTokens, inputTokens + outputTokens)
  }

  /** What the adapter calls back with, given whether the client exists. */
  function AnthropicEmission(configured: bool, run: MessageRun): (em: Emission)
    ensures !configured ==> em == NotConfigured(NOT_CONFIGURED)
    ensures configured ==> em.chunks == TextDeltas(run.events)
    ensures configured && run.end.StreamThrew? ==> em.end == Failed(CaughtMessage(run.end.error))
    ensures configured && run.end.FinalMessage? ==>
      em.end == Done(Usage(run.end.inputTokens, run.end.outputTokens, run.end.inputTokens + run.end.outputTokens))
  {
    if !configured then NotConfigured(NOT_CONFIGURED)
    else
      match run.end
      case FinalMessage(input, output) => Emission(TextDeltas(run.events), Done(FinalUsage(input, output)))
      case StreamThrew(e) => Emission(TextDeltas(run.events), Failed(CaughtMessage(e)))
  }

  /** `streamAnthropicResponse(options)` against the module's client singleton; `key` is
      `env.anthropicApiKey`. */
  method StreamAnthropicResponse(client: LazyClient, key: Option<string>, model: string, systemPrompt: string,
                                 userPrompt: string, maxTokens: Option<int>, run: MessageRun)
    returns (request: Option<MessageRequest>, em: Emission)
    requires client.Valid()
    modifies client
    ensures client.Valid()
    ensures client.constructions == old(client.constructions) || (old(client.constructions) == 0 && client.constructions == 1)
    ensures em == AnthropicEmission(key.Some? && key.value != "", run)
    ensures request.Some? <==> key.Some? && key.value != ""
    ensures request.Some? ==> request.value == Request(model, systemPrompt, userPrompt, maxTokens)
  {
    var c := client.Get(key);
    if c.None? {
      return None, NotConfigured(NOT_CONFIGURED);
    }
    request := Some(Request(model, systemPrompt, userPrompt, maxTokens));
    var chunks := ReadStream(run.events);
    match run.end {
      case FinalMessage(input, output) =>
        em := Emission(chunks, Done(FinalUsage(input, output)));
      case StreamThrew(e) =>
        em := Emission(chunks, Failed(CaughtMessage(e)));
    }
  }
}
