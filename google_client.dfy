/** The Google adapter (src/lib/clients/google.ts): the model parameters with their
    optional `systemInstruction` and `maxOutputTokens`, the chunk loop with its running
    `totalText`, and the usage defaults. */
module GoogleClient {
  import opened Util
  import opened Models
  import opened Adapter

  const NOT_CONFIGURED := "Google AI client not configured"

  /** The `getGenerativeModel` parameters; the content sent is the user prompt alone. */
  datatype ModelParams = ModelParams(model: string, systemInstruction: Option<string>, maxOutputTokens: Option<int>)

  function Params(model: string, systemPrompt: string, maxTokens: Option<int>): (p: ModelParams)
    ensures p.model == model
    ensures p.systemInstruction.Some? <==> systemPrompt != ""
    ensures p.systemInstruction.Some? ==> p.systemInstruction.value == systemPrompt
    ensures p.maxOutputTokens.Some? <==> maxTokens.Some?
    ensures p.maxOutputTokens.Some? ==> p.maxOutputTokens.value == maxTokens.value
  {
    ModelParams(model, if systemPrompt != "" then Some(systemPrompt) else None, maxTokens)
  }

  /** How the stream ends: the aggregated response with optional usage metadata, or a throw. */
  datatype StreamEnd = Response(metadata: Option<UsageMetadata>) | StreamThrew(error: Thrown)

  /** The `chunk.text()` values in order, then the end. */
  datatype ContentRun = ContentRun(texts: seq<string>, end: StreamEnd)

  /** The `for await` loop: emits each non-empty text and accumulates `totalText`. */
  method ReadStream(texts: seq<string>) returns (chunks: seq<string>, totalText: string)
    ensures chunks == NonEmpty(texts)
    ensures totalText == Concat(chunks) && totalText == Concat(texts)
  {
    chunks := [];
    totalText := "";
    for i := 0 to |texts|
      invariant chunks == NonEmpty(texts[..i])
      invariant totalText == Concat(chunks)
    {
      assert texts[..i + 1][..i] == texts[..i];
      var text := texts[i];
      if text != "" {
        ConcatAppend(chunks, [text]);
        assert Concat([text]) == text;
        totalText := totalText + text;
        chunks := chunks + [text];
      }
    }
    assert texts[..|texts|] == texts;
    NonEmptyText(texts);
  }

  /** What the adapter calls back with, given whether the client exists. */
  function GoogleEmission(configured: bool, run: ContentRun): (em: Emission)
    ensures !configured ==> em == NotConfigured(NOT_CONFIGURED)
    ensures configured ==> em.chunks == NonEmpty(run.texts)
    ensures configured && run.end.StreamThrew? ==> em.end == Failed(CaughtMessage(run.end.error))
    ensures configured && run.end.Response? ==> em.end == Done(UsageOf(run.end.metadata))
  {
    if !configured then NotConfigured(NOT_CONFIGURED)
    else
      match run.end
      case Response(md) => Emission(NonEmpty(run.texts), Done(UsageOf(md)))
      case StreamThrew(e) => Emission(NonEmpty(run.texts), Failed(CaughtMessage(e)))
  }

  /** `streamGoogleResponse(options)` against the module's client singleton; `key` is
      `env.googleAiApiKey`. */
  method StreamGoogleResponse(client: LazyClient, key: Option<string>, model: string, systemPrompt: string,
                              userPrompt: string, maxTokens: Option<int>, run: ContentRun)
    returns (params: Option<(ModelParams, string)>, em: Emission)
    requires client.Valid()
    modifies client
    ensures client.Valid()
    ensures client.constructions == old(client.constructions) || (old(client.constructions) == 0 && client.constructions == 1)
    ensures em == GoogleEmission(key.Some? && key.value != "", run)
    ensures params.Some? <==> key.Some? && key.value != ""
    ensures params.Some? ==> params.value == (Params(model, systemPrompt, maxTokens), userPrompt)
  {
    var c := client.Get(key);
    if c.None? {
      return None, NotConfigured(NOT_CONFIGURED);
    }
    params := Some((Params(model, systemPrompt, maxTokens), userPrompt));
    var chunks, totalText := ReadStream(run.texts);
    match run.end {
      case Response(md) =>
        em := Emission(chunks, Done(UsageOf(md)));
      case StreamThrew(e) =>
        em := Emission(chunks, Failed(CaughtMessage(e)));
    }
  }
}
