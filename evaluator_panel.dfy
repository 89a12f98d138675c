/** The evaluator panel (src/components/evaluator-panel.tsx): which responses are
    offered to the judge, when evaluation may start, what `handleEvaluate` sends and
    records, and which message the panel shows. */
module EvaluatorPanel {
  import opened Util
  import opened Responses
  import opened EvaluateRoute

  /** A response counts as successful when it completed without error and has content. */
  predicate Successful(r: ModelResponse) {
    r.isComplete && !r.isError && r.content != ""
  }

  /** `successfulResponses` over the keys in the given order. */
  function SuccessfulAmong(keys: seq<string>, entries: map<string, ModelResponse>): (rs: seq<ResponseItem>)
    requires forall k :: k in keys ==> k in entries
    ensures |rs| <= |keys|
  {
    if |keys| == 0 then []
    else
      var k := keys[|keys| - 1];
      var front := SuccessfulAmong(keys[..|keys| - 1], entries);
      if Successful(entries[k]) then front + [ResponseItem(k, entries[k].content)] else front
  }

  /** `Array.from(responses.entries()).filter(...).map(...)`: in the table's key order. */
  function SuccessfulResponses(t: Table): seq<ResponseItem>
    requires t.Valid()
  {
    SuccessfulAmong(t.keys, t.entries)
  }

  /** An item is offered exactly when its model's entry is successful, with that entry's
      content; items follow the key order, so every model appears at most once. */
  lemma {:induction false} SuccessfulAmongExact(keys: seq<string>, entries: map<string, ModelResponse>)
    requires forall k :: k in keys ==> k in entries
    requires forall i, j :: 0 <= i < j < |keys| ==> keys[i] != keys[j]
    ensures forall item :: item in SuccessfulAmong(keys, entries) <==>
      item.modelId in keys && Successful(entries[item.modelId]) && item.content == entries[item.modelId].content
    ensures forall i, j :: 0 <= i < j < |SuccessfulAmong(keys, entries)| ==>
      SuccessfulAmong(keys, entries)[i].modelId != SuccessfulAmong(keys, entries)[j].modelId
  {
    if |keys| > 0 {
      var front := keys[..|keys| - 1];
      var k := keys[|keys| - 1];
      assert keys == front + [k];
      SuccessfulAmongExact(front, entries);
      assert k !in front by {
        forall i | 0 <= i < |front| ensures front[i] != k { assert front[i] == keys[i]; }
      }
    }
  }

  lemma SuccessfulResponsesExact(t: Table)
    requires t.Valid()
    ensures forall item :: item in SuccessfulResponses(t) <==>
      item.modelId in t.entries && Successful(t.entries[item.modelId]) && item.content == t.entries[item.modelId].content
    ensures forall i, j :: 0 <= i < j < |SuccessfulResponses(t)| ==>
      SuccessfulResponses(t)[i].modelId != SuccessfulResponses(t)[j].modelId
    ensures |SuccessfulResponses(t)| <= |t.keys|
  {
    SuccessfulAmongExact(t.keys, t.entries);
  }

  /** `canEvaluate` */
  predicate CanEvaluate(allComplete: bool, t: Table, isEvaluating: bool)
    requires t.Valid()
  {
    allComplete && |SuccessfulResponses(t)| >= 2 && !isEvaluating
  }

  /** The panel's own state. */
  datatype PanelState = PanelState(evaluation: Option<string>, isEvaluating: bool, error: Option<string>)

  /** The request body of `handleEvaluate`. */
  function RequestBody(userPrompt: string, systemPrompt: string, t: Table): (body: EvalRequest)
    requires t.Valid()
    ensures body.originalPrompt == Some(userPrompt) && body.systemPrompt == Some(systemPrompt)
    ensures body.responses == Some(SuccessfulResponses(t))
  {
    EvalRequest(Some(userPrompt), Some(systemPrompt), Some(SuccessfulResponses(t)))
  }

  /** The route admits what an enabled panel sends exactly when the user prompt is
      non-empty: an enabled panel always has at least two successful responses. */
  lemma EnabledRequestAdmitted(userPrompt: string, systemPrompt: string, t: Table, isEvaluating: bool)
    requires t.Valid() && CanEvaluate(true, t, isEvaluating)
    ensures !Rejected(RequestBody(userPrompt, systemPrompt, t)) <==> userPrompt != ""
  {
  }

  /** The state while the request is in flight: evaluating, with the previous error and
      evaluation cleared. */
  function StartEvaluation(st: PanelState): (r: PanelState)
    ensures r.isEvaluating && r.error.None? && r.evaluation.None?
  {
    PanelState(None, true, None)
  }

  /** The reply as seen by the panel: `fetch` threw, or the reply's `ok` flag and its JSON
      body (which may fail to parse). */
  datatype PanelReply =
    | RequestThrew(thrown: Thrown)
    | Replied(ok: bool, json: JsonBody)

  datatype JsonBody = JsonThrew(thrown: Thrown) | Json(error: Option<string>, evaluation: Option<string>)

  /** `err instanceof Error ? err.message : "Evaluation failed"` */
  function PanelCaughtMessage(e: Thrown): string {
    if e.isError then e.message else "Evaluation failed"
  }

  /** The state after `handleEvaluate` settles. */
  function FinishEvaluation(st: PanelState, reply: PanelReply): (r: PanelState)
    requires st.isEvaluating && st.error.None? && st.evaluation.None?
    ensures !r.isEvaluating
    ensures r.error.Some? <==> !(reply.Replied? && reply.ok && reply.json.Json?)
    ensures reply.Replied? && !reply.ok && reply.json.Json? ==>
      r.error == Some(if reply.json.error.Some? && reply.json.error.value != "" then reply.json.error.value else "Evaluation failed")
    ensures reply.RequestThrew? ==>
      r.error == Some(if reply.thrown.isError then reply.thrown.message else "Evaluation failed")
    ensures reply.Replied? && reply.json.JsonThrew? ==>
      r.error == Some(if reply.json.thrown.isError then reply.json.thrown.message else "Evaluation failed")
    ensures reply.Replied? && reply.ok && reply.json.Json? ==> r.evaluation == reply.json.evaluation
    ensures r.error.Some? ==> r.evaluation.None?
  {
    match reply
    case RequestThrew(e) => PanelState(None, false, Some(PanelCaughtMessage(e)))
    case Replied(ok, json) =>
      match json
      case JsonThrew(e) => PanelState(None, false, Some(PanelCaughtMessage(e)))
      case Json(error, evaluation) =>
        if !ok then
          PanelState(None, false, Some(if error.Some? && error.value != "" then error.value else "Evaluation failed"))
        else PanelState(evaluation, false, None)
  }

  /** What the panel body shows. */
  datatype View = Waiting | NeedTwo | ShowError(message: string) | ShowEvaluation(text: string) | Invite

  /** The chain of conditionals of the panel body, from first to last. */
  function Display(allComplete: bool, t: Table, st: PanelState): (v: View)
    requires t.Valid()
    ensures v == Waiting <==> !allComplete && HasResponses(t)
    ensures v == NeedTwo <==> (allComplete || !HasResponses(t)) && |SuccessfulResponses(t)| < 2
    ensures v.ShowError? <==>
      ((allComplete || !HasResponses(t)) && |SuccessfulResponses(t)| >= 2 && st.error.Some? && st.error.value != "")
    ensures v.ShowError? ==> v.message == st.error.value
    ensures v.ShowEvaluation? <==>
      ((allComplete || !HasResponses(t)) && |SuccessfulResponses(t)| >= 2 && !(st.error.Some? && st.error.value != "")
       && st.evaluation.Some? && st.evaluation.value != "")
    ensures v.ShowEvaluation? ==> v.text == st.evaluation.value
  {
    if !allComplete && HasResponses(t) then Waiting
    else if |SuccessfulResponses(t)| < 2 then NeedTwo
    else if st.error.Some? && st.error.value != "" then ShowError(st.error.value)
    else if st.evaluation.Some? && st.evaluation.value != "" then ShowEvaluation(st.evaluation.value)
    else Invite
  }

  /** Whenever evaluation is enabled, the panel shows neither the waiting nor the
      need-two message. */
  lemma EnabledShowsResult(t: Table, st: PanelState)
    requires t.Valid() && CanEvaluate(true, t, st.isEvaluating)
    ensures Display(true, t, st) != Waiting && Display(true, t, st) != NeedTwo
  {
  }
}
