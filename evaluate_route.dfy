/** The evaluation endpoint (src/app/api/evaluate/route.ts): validation of the request,
    the deterministic construction of the judge prompt, the judge call and its reply. */
module EvaluateRoute {
  import opened Util
  import opened Models
  import opened Adapter

  /** One `{ modelId, content }` element of the request. */
  datatype ResponseItem = ResponseItem(modelId: string, content: string)

  /** The parsed request body; a field the body does not carry is `None`. */
  datatype EvalRequest = EvalRequest(
    originalPrompt: Option<string>,
    systemPrompt: Option<string>,
    responses: Option<seq<ResponseItem>>)

  /** What `generateContent` delivers: the text and optional usage metadata, or a throw. */
  datatype Generation =
    | Generated(text: string, metadata: Option<UsageMetadata>)
    | GenerationThrew(error: Thrown)

  /** The JSON reply of the route. */
  datatype Reply =
    | ErrorReply(status: nat, error: string)
    | EvaluationReply(evaluation: string, usage: Usage)

  /** The reply plus, when the judge was asked, the model name and the prompt sent. */
  datatype Outcome = Outcome(reply: Reply, judgeCall: Option<(string, string)>)

  const JUDGE_MODEL := "gemini-3-flash-preview"
  const NO_SYSTEM_PROMPT := "(No system prompt provided)"
  const RESPONSE_SEPARATOR := "\n\n---\n\n"

  const PREAMBLE := "You are an expert evaluator comparing AI model responses. Analyze the following responses to the same prompt and provide a detailed comparison.\n\n## Original System Prompt\n"
  const USER_HEADING := "\n\n## Original User Prompt\n"
  const RESPONSES_HEADING := "\n\n## Model Responses\n\n"
  const TASK := "\n\n---\n\n## Your Task\n\nProvide a comprehensive evaluation that includes:\n\n"
    + "1. **Summary**: A brief overview of how each model approached the task (2-3 sentences each)\n\n"
    + "2. **Strengths & Weaknesses**: For each response, identify:\n   - Key strengths\n   - Notable weaknesses or gaps\n\n"
    + "3. **Comparison Criteria**: Rate each response on these dimensions (1-5 scale):\n   - Accuracy/Correctness\n   - Completeness\n   - Clarity & Organization\n   - Helpfulness\n   - Creativity (if applicable)\n\n"
    + "4. **Winner**: Declare which response best addresses the prompt and explain why\n\n"
    + "5. **Recommendation**: Suggest which model might be best suited for this type of task\n\n"
    + "Be objective and specific in your analysis. Reference specific parts of each response when making comparisons."

  /** `model?.name || r.modelId` */
  function DisplayName(modelId: string): (name: string)
    ensures FindModel(modelId).None? ==> name == modelId
    ensures FindModel(modelId).Some? ==> name == FindModel(modelId).value.name
  {
    RegistryWellFormed();
    match FindModel(modelId)
    case Some(m) => if m.name != "" then m.name else modelId
    case None => modelId
  }

  /** One rendered response: a heading with the model's name, then its content. */
  function RenderResponse(r: ResponseItem): (s: string)
    ensures StartsWith(s, "### " + DisplayName(r.modelId) + "\n")
    ensures s[|"### " + DisplayName(r.modelId) + "\n"|..] == r.content
  {
    "### " + DisplayName(r.modelId) + "\n" + r.content
  }

  function RenderAll(rs: seq<ResponseItem>): (out: seq<string>)
    ensures |out| == |rs|
    ensures forall i :: 0 <= i < |rs| ==> out[i] == RenderResponse(rs[i])
  {
    if |rs| == 0 then [] else [RenderResponse(rs[0])] + RenderAll(rs[1..])
  }

  /** `modelResponses`: the rendered responses in input order, joined by the separator. */
  function ModelResponses(rs: seq<ResponseItem>): string {
    Join(RenderAll(rs), RESPONSE_SEPARATOR)
  }

  /** `systemPrompt || "(No system prompt provided)"` */
  function SystemOrDefault(systemPrompt: Option<string>): (s: string)
    ensures systemPrompt.None? || systemPrompt.value == "" ==> s == NO_SYSTEM_PROMPT
    ensures systemPrompt.Some? && systemPrompt.value != "" ==> s == systemPrompt.value
  {
    if systemPrompt.Some? && systemPrompt.value != "" then systemPrompt.value else NO_SYSTEM_PROMPT
  }

  /** `evaluationPrompt` */
  function EvaluationPrompt(originalPrompt: string, systemPrompt: Option<string>, rs: seq<ResponseItem>): string {
    PREAMBLE + SystemOrDefault(systemPrompt) + USER_HEADING + originalPrompt + RESPONSES_HEADING + ModelResponses(rs) + TASK
  }

  /** The prompt opens with the fixed preamble, embeds the system prompt (or the
      placeholder), the user prompt and every rendered response verbatim, and ends with
      the fixed task text. */
  lemma EvaluationPromptEmbeds(originalPrompt: string, systemPrompt: Option<string>, rs: seq<ResponseItem>)
    ensures var p := EvaluationPrompt(originalPrompt, systemPrompt, rs);
      StartsWith(p, PREAMBLE + SystemOrDefault(systemPrompt) + USER_HEADING)
      && Includes(p, originalPrompt)
      && Includes(p, ModelResponses(rs))
      && p[|p| - |TASK|..] == TASK
  {
    TemplateParts(PREAMBLE, SystemOrDefault(systemPrompt), USER_HEADING, originalPrompt, RESPONSES_HEADING, ModelResponses(rs), TASK);
  }

  /** The template shape on arbitrary parts: a fixed head, two embedded middle parts and
      a fixed tail. */
  lemma TemplateParts(pre: string, sys: string, h1: string, user: string, h2: string, body: string, tail: string)
    ensures var p := pre + sys + h1 + user + h2 + body + tail;
      StartsWith(p, pre + sys + h1) && Includes(p, user) && Includes(p, body) && p[|p| - |tail|..] == tail
  {
    var head := pre + sys + h1;
    var p := pre + sys + h1 + user + h2 + body + tail;
    assert p == head + (user + h2 + body + tail);
    IncludesMiddle(head, user, h2 + body + tail);
    assert p == head + user + (h2 + body + tail);
    IncludesMiddle(head + user + h2, body, tail);
    assert p == (head + user + h2 + body) + tail;
  }

  /** n responses are joined with exactly n - 1 separators. */
  lemma ModelResponsesLength(rs: seq<ResponseItem>)
    requires |rs| >= 1
    ensures |ModelResponses(rs)| == TotalLength(RenderAll(rs)) + (|rs| - 1) * |RESPONSE_SEPARATOR|
  {
    JoinLength(RenderAll(rs), RESPONSE_SEPARATOR);
  }

  /** The responses appear in input order: one more response adds the separator and its
      rendering at the end, and a single response is rendered alone. */
  lemma ModelResponsesSnoc(rs: seq<ResponseItem>, last: ResponseItem)
    ensures |rs| >= 1 ==> ModelResponses(rs + [last]) == ModelResponses(rs) + RESPONSE_SEPARATOR + RenderResponse(last)
    ensures ModelResponses([last]) == RenderResponse(last)
  {
    if |rs| >= 1 {
      assert RenderAll(rs + [last]) == RenderAll(rs) + [RenderResponse(last)];
      JoinSnoc(RenderAll(rs), RenderResponse(last), RESPONSE_SEPARATOR);
    }
  }

  /** `!originalPrompt || !responses || responses.length < 2` */
  predicate Rejected(body: EvalRequest) {
    body.originalPrompt.None? || body.originalPrompt.value == ""
    || body.responses.None? || |body.responses.value| < 2
  }

  /** `POST /api/evaluate`. `body` is `None` when the body is not JSON; `generate(model,
      prompt)` is the judge call. */
  function Post(authenticated: bool, body: Option<EvalRequest>, clientConfigured: bool,
                generate: (string, string) -> Generation): (o: Outcome)
    ensures o.judgeCall.Some? ==> authenticated && body.Some? && !Rejected(body.value) && clientConfigured
    ensures !authenticated ==> o.reply == ErrorReply(401, "Unauthorized")
    ensures authenticated && body.None? ==> o.reply == ErrorReply(400, "Invalid JSON")
    ensures authenticated && body.Some? && Rejected(body.value) ==> o.reply == ErrorReply(400, "Need at least 2 responses to evaluate")
    ensures authenticated && body.Some? && !Rejected(body.value) && !clientConfigured
      ==> o.reply == ErrorReply(500, "Google AI not configured")
  {
    if !authenticated then Outcome(ErrorReply(401, "Unauthorized"), None)
    else if body.None? then Outcome(ErrorReply(400, "Invalid JSON"), None)
    else if Rejected(body.value) then Outcome(ErrorReply(400, "Need at least 2 responses to evaluate"), None)
    else if !clientConfigured then Outcome(ErrorReply(500, "Google AI not configured"), None)
    else
      var req := body.value;
      var prompt := EvaluationPrompt(req.originalPrompt.value, req.systemPrompt, req.responses.value);
      var call := (JUDGE_MODEL, prompt);
      match generate(JUDGE_MODEL, prompt)
      case Generated(text, md) => Outcome(EvaluationReply(text, UsageOf(md)), Some(call))
      case GenerationThrew(e) =>
        Outcome(ErrorReply(500, if e.isError then e.message else "Evaluation failed"), Some(call))
  }

  /** An admitted request asks the judge model exactly once with the prompt built
      from the request, and answers with the judge's text or a 500. */
  lemma AdmittedRequestAsksJudge(body: EvalRequest, generate: (string, string) -> Generation)
    requires !Rejected(body)
    ensures var o := Post(true, Some(body), true, generate);
      var prompt := EvaluationPrompt(body.originalPrompt.value, body.systemPrompt, body.responses.value);
      o.judgeCall == Some((JUDGE_MODEL, prompt))
      && (generate(JUDGE_MODEL, prompt).Generated? ==>
            o.reply == EvaluationReply(generate(JUDGE_MODEL, prompt).text, UsageOf(generate(JUDGE_MODEL, prompt).metadata)))
      && (generate(JUDGE_MODEL, prompt).GenerationThrew? ==>
            var e := generate(JUDGE_MODEL, prompt).error;
            o.reply == ErrorReply(500, if e.isError then e.message else "Evaluation failed"))
  {
  }

  /** Every registry entry has a non-empty name, so a registered id is shown by name. */
  lemma RegisteredShownByName(k: nat)
    requires k < |AVAILABLE_MODELS|
    ensures DisplayName(AVAILABLE_MODELS[k].id) == AVAILABLE_MODELS[k].name
  {
    FindModelOfEntry(k);
  }
}
