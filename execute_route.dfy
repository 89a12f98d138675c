/** The execute endpoint (src/app/api/execute/route.ts): admission of the request, the
    registry filter, provider dispatch, the tagging of adapter callbacks as stream chunks,
    their framing, and the sequential abstraction of the concurrent fan-out as an
    interleaving of the per-model chunk sequences with a set of pending models. */
module ExecuteRoute {
  import opened Util
  import opened Models
  import opened Adapter

  /** The parsed request body; a field the body does not carry is `None`. */
  datatype ExecRequest = ExecRequest(systemPrompt: Option<string>, userPrompt: Option<string>, models: Option<seq<SelectedModel>>)

  /** The route's decision before streaming: a plain-text error reply, or the prompts
      and the models to run. */
  datatype Admission =
    | Refused(status: nat, text: string)
    | Admitted(systemPrompt: string, userPrompt: string, valid: seq<SelectedModel>)

  /** `models.filter((m) => AVAILABLE_MODELS.some((am) => am.id === m.modelId))` */
  function ValidModels(models: seq<SelectedModel>): (r: seq<SelectedModel>)
    ensures |r| <= |models|
    ensures forall i :: 0 <= i < |r| ==> IsRegistered(r[i].modelId)
  {
    if |models| == 0 then []
    else
      var front := ValidModels(models[..|models| - 1]);
      var m := models[|models| - 1];
      if IsRegistered(m.modelId) then front + [m] else front
  }

  /** The filter distributes over concatenation: it keeps the order of what it keeps. */
  lemma {:induction false} ValidModelsAppend(a: seq<SelectedModel>, b: seq<SelectedModel>)
    ensures ValidModels(a + b) == ValidModels(a) + ValidModels(b)
  {
    if |b| > 0 {
      var front := b[..|b| - 1];
      assert (a + b)[..|a + b| - 1] == a + front;
      ValidModelsAppend(a, front);
    } else {
      assert a + b == a;
    }
  }

  /** The filter keeps exactly the registered selections. */
  lemma {:induction false} ValidModelsMembers(a: seq<SelectedModel>)
    ensures forall m :: m in ValidModels(a) <==> m in a && IsRegistered(m.modelId)
  {
    if |a| > 0 {
      var front := a[..|a| - 1];
      ValidModelsMembers(front);
      assert a == front + [a[|a| - 1]];
    }
  }

  /** A single registered selection passes the filter. */
  lemma ValidModelsSingle(m: SelectedModel)
    requires IsRegistered(m.modelId)
    ensures ValidModels([m]) == [m]
  {
    assert [m][..0] == [];
  }

  /** A selection of registered models passes the filter unchanged. */
  lemma {:induction false} ValidModelsKeepsRegistered(a: seq<SelectedModel>)
    requires forall m :: m in a ==> IsRegistered(m.modelId)
    ensures ValidModels(a) == a
  {
    if |a| > 0 {
      var front, m := a[..|a| - 1], a[|a| - 1];
      assert a == front + [m];
      assert forall x :: x in front ==> x in a;
      ValidModelsKeepsRegistered(front);
      ValidModelsAppend(front, [m]);
      ValidModelsSingle(m);
    }
  }

  /** A JavaScript string is truthy when it is present and non-empty. */
  predicate Truthy(s: Option<string>) {
    s.Some? && s.value != ""
  }

  /** The checks of `POST` up to the start of the stream. `body` is `None` when the body
      is not JSON. */
  function Admit(authenticated: bool, body: Option<ExecRequest>): (a: Admission)
    ensures !authenticated ==> a == Refused(401, "Unauthorized")
    ensures authenticated && body.None? ==> a == Refused(400, "Invalid JSON")
    ensures authenticated && body.Some? &&
      (!Truthy(body.value.systemPrompt) || !Truthy(body.value.userPrompt) || body.value.models.None? || body.value.models.value == [])
      ==> a == Refused(400, "Missing required fields")
    ensures a.Admitted? ==>
      (authenticated && body.Some? && body.value.systemPrompt == Some(a.systemPrompt) && a.systemPrompt != ""
       && body.value.userPrompt == Some(a.userPrompt) && a.userPrompt != ""
       && body.value.models.Some? && a.valid == ValidModels(body.value.models.value) && a.valid != [])
    ensures authenticated && body.Some? && Truthy(body.value.systemPrompt) && Truthy(body.value.userPrompt)
      && body.value.models.Some? && body.value.models.value != []
      ==> (a.Refused? <==> ValidModels(body.value.models.value) == [])
    ensures a.Refused? && a.status == 400 && a.text == "No valid models selected" ==>
      (body.Some? && body.value.models.Some? && ValidModels(body.value.models.value) == [])
  {
    if !authenticated then Refused(401, "Unauthorized")
    else if body.None? then Refused(400, "Invalid JSON")
    else
      var b := body.value;
      if !Truthy(b.systemPrompt) || !Truthy(b.userPrompt) || b.models.None? || |b.models.value| == 0 then
        Refused(400, "Missing required fields")
      else
        var valid := ValidModels(b.models.value);
        if |valid| == 0 then Refused(400, "No valid models selected")
        else Admitted(b.systemPrompt.value, b.userPrompt.value, valid)
  }

  /** `sendChunk`: the bytes of one server-sent event, with `enc` for `JSON.stringify`. */
  function Frame(enc: StreamChunk -> string, c: StreamChunk): (f: string)
    ensures StartsWith(f, "data: ") && |f| == |enc(c)| + 8
    ensures f[6..|f| - 2] == enc(c) && f[|f| - 2..] == "\n\n"
  {
    "data: " + enc(c) + "\n\n"
  }

  /** The frames of a chunk sequence, back to back. */
  function Frames(enc: StreamChunk -> string, cs: seq<StreamChunk>): string {
    if |cs| == 0 then "" else Frames(enc, cs[..|cs| - 1]) + Frame(enc, cs[|cs| - 1])
  }

  /** The adapter a provider string selects. */
  datatype ProviderAdapter = OpenAIAdapter | AnthropicAdapter | GoogleAdapter

  /** The `switch (modelDef.provider)` */
  function AdapterFor(provider: string): (a: Option<ProviderAdapter>)
    ensures a.None? <==> !IsProvider(provider)
    ensures provider == OPENAI ==> a == Some(OpenAIAdapter)
    ensures provider == ANTHROPIC ==> a == Some(AnthropicAdapter)
    ensures provider == GOOGLE ==> a == Some(GoogleAdapter)
  {
    if provider == OPENAI then Some(OpenAIAdapter)
    else if provider == ANTHROPIC then Some(AnthropicAdapter)
    else if provider == GOOGLE then Some(GoogleAdapter)
    else None
  }

  /** What a model's callbacks receive: its adapter's emission, or the `default` branch's
      single error. */
  function Dispatch(provider: string, emitted: ProviderAdapter -> Emission): (em: Emission)
    ensures AdapterFor(provider).Some? ==> em == emitted(AdapterFor(provider).value)
    ensures AdapterFor(provider).None? ==> em == NotConfigured("Unknown provider: " + provider)
  {
    match AdapterFor(provider)
    case Some(a) => emitted(a)
    case None => NotConfigured("Unknown provider: " + provider)
  }

  function ContentChunkOf(modelId: string, content: string): StreamChunk {
    StreamChunk(modelId, ContentChunk, Some(content), None, None, None, None)
  }

  /** `onChunk`, `onDone` and `onError` of one model: every callback becomes one chunk
      tagged with the model's id, the terminal one with the latency. */
  function Tagged(modelId: string, em: Emission, latencyMs: nat): (cs: seq<StreamChunk>)
    ensures |cs| == |em.chunks| + 1
    ensures forall i :: 0 <= i < |cs| ==> cs[i].modelId == modelId
    ensures forall i :: 0 <= i < |em.chunks| ==> cs[i] == ContentChunkOf(modelId, em.chunks[i])
    ensures em.end.Done? ==> cs[|cs| - 1] == StreamChunk(modelId, DoneChunk, None, Some("stop"), Some(em.end.usage), Some(latencyMs), None)
    ensures em.end.Failed? ==> cs[|cs| - 1] == StreamChunk(modelId, ErrorChunk, None, None, None, Some(latencyMs), Some(em.end.message))
  {
    seq(|em.chunks|, i requires 0 <= i < |em.chunks| => ContentChunkOf(modelId, em.chunks[i]))
    + [match em.end
       case Done(usage) => StreamChunk(modelId, DoneChunk, None, Some("stop"), Some(usage), Some(latencyMs), None)
       case Failed(message) => StreamChunk(modelId, ErrorChunk, None, None, None, Some(latencyMs), Some(message))]
  }

  /** A done or error chunk, the one that resolves its model's completion promise. */
  predicate Terminal(c: StreamChunk) {
    c.kind != ContentChunk
  }

  /** Content chunks, then exactly one terminal chunk. */
  predicate WellFormed(cs: seq<StreamChunk>) {
    |cs| >= 1 && Terminal(cs[|cs| - 1]) && forall i :: 0 <= i < |cs| - 1 ==> !Terminal(cs[i])
  }

  lemma TaggedWellFormed(modelId: string, em: Emission, latencyMs: nat)
    ensures WellFormed(Tagged(modelId, em, latencyMs))
  {
  }

  /** The chunks of the i-th valid model. `emitted(i, a)` is what adapter `a` calls back
      with for that model and `latency(i)` its `Date.now() - startTime`. A model missing
      from the registry is skipped (`continue`). */
  function ModelStream(m: SelectedModel, i: nat, emitted: (nat, ProviderAdapter) -> Emission, latency: nat -> nat): seq<StreamChunk> {
    match FindModel(m.modelId)
    case None => []
    case Some(def) => Tagged(m.modelId, Dispatch(def.provider, a => emitted(i, a)), latency(i))
  }

  function Streams(valid: seq<SelectedModel>, emitted: (nat, ProviderAdapter) -> Emission, latency: nat -> nat): (per: seq<seq<StreamChunk>>)
    ensures |per| == |valid|
    ensures forall i :: 0 <= i < |valid| ==> per[i] == ModelStream(valid[i], i, emitted, latency)
  {
    seq(|valid|, i requires 0 <= i < |valid| => ModelStream(valid[i], i, emitted, latency))
  }

  /** Every valid model gets one completion: a well-formed chunk sequence tagged with its
      own id; an unknown provider yields exactly one error chunk. */
  lemma StreamsWellFormed(valid: seq<SelectedModel>, emitted: (nat, ProviderAdapter) -> Emission, latency: nat -> nat)
    requires forall i :: 0 <= i < |valid| ==> FindModel(valid[i].modelId).Some?
    ensures forall i :: 0 <= i < |valid| ==> WellFormed(Streams(valid, emitted, latency)[i])
    ensures forall i, j :: 0 <= i < |valid| && 0 <= j < |Streams(valid, emitted, latency)[i]| ==>
      Streams(valid, emitted, latency)[i][j].modelId == valid[i].modelId
    ensures forall i :: 0 <= i < |valid| && !IsProvider(FindModel(valid[i].modelId).value.provider) ==>
      Streams(valid, emitted, latency)[i] ==
        [StreamChunk(valid[i].modelId, ErrorChunk, None, None, None, Some(latency(i)),
                     Some("Unknown provider: " + FindModel(valid[i].modelId).value.provider))]
  {
    forall i | 0 <= i < |valid| ensures WellFormed(Streams(valid, emitted, latency)[i]) {
      var def := FindModel(valid[i].modelId).value;
      TaggedWellFormed(valid[i].modelId, Dispatch(def.provider, a => emitted(i, a)), latency(i));
    }
  }

  /** The body the client hook sends, for non-empty prompts and a non-empty selection
      of registered models, is admitted with that very selection, in its order. */
  lemma AdmitsRegisteredSelection(systemPrompt: string, userPrompt: string, selected: seq<SelectedModel>)
    requires systemPrompt != "" && userPrompt != "" && selected != []
    requires forall m :: m in selected ==> IsRegistered(m.modelId)
    ensures Admit(true, Some(ExecRequest(Some(systemPrompt), Some(userPrompt), Some(selected))))
      == Admitted(systemPrompt, userPrompt, selected)
  {
    ValidModelsKeepsRegistered(selected);
  }

  /** The outcome of `POST`: a refusal, or the per-model chunk sequences that the stream
      interleaves. */
  datatype PostResult = PostRefused(status: nat, text: string) | Streaming(per: seq<seq<StreamChunk>>)

  function Post(authenticated: bool, body: Option<ExecRequest>, emitted: (nat, ProviderAdapter) -> Emission,
                latency: nat -> nat): (r: PostResult)
    ensures Admit(authenticated, body).Refused? ==>
      r == PostRefused(Admit(authenticated, body).status, Admit(authenticated, body).text)
    ensures Admit(authenticated, body).Admitted? ==>
      r == Streaming(Streams(Admit(authenticated, body).valid, emitted, latency))
  {
    match Admit(authenticated, body)
    case Refused(status, text) => PostRefused(status, text)
    case Admitted(_, _, valid) => Streaming(Streams(valid, emitted, latency))
  }

  /** The sent chunks, which model each came from, and how far each model has got. */
  datatype MuxState = MuxState(out: seq<StreamChunk>, origin: seq<nat>, pos: seq<nat>)

  /** Model `i` gets to send its next chunk, if it has one left. */
  function Step(per: seq<seq<StreamChunk>>, st: MuxState, i: nat): (r: MuxState)
    requires |st.pos| == |per|
    ensures |r.pos| == |per|
  {
    if i < |per| && st.pos[i] < |per[i]| then
      MuxState(st.out + [per[i][st.pos[i]]], st.origin + [i], st.pos[i := st.pos[i] + 1])
    else st
  }

  /** The stream after the models took turns as `schedule` says: any order in which the
      concurrent adapters may have called back. */
  function Interleave(per: seq<seq<StreamChunk>>, schedule: seq<nat>): (st: MuxState)
    ensures |st.pos| == |per|
  {
    if |schedule| == 0 then MuxState([], [], seq(|per|, _ => 0))
    else Step(per, Interleave(per, schedule[..|schedule| - 1]), schedule[|schedule| - 1])
  }

  /** The chunks of `out` that came from model `i`, in order. */
  function Project(out: seq<StreamChunk>, origin: seq<nat>, i: nat): seq<StreamChunk>
    requires |out| == |origin|
  {
    if |out| == 0 then []
    else
      var front := Project(out[..|out| - 1], origin[..|origin| - 1], i);
      if origin[|origin| - 1] == i then front + [out[|out| - 1]] else front
  }

  /** How often model `i` was given a turn. */
  function Turns(schedule: seq<nat>, i: nat): nat {
    if |schedule| == 0 then 0
    else Turns(schedule[..|schedule| - 1], i) + (if schedule[|schedule| - 1] == i then 1 else 0)
  }

  /** In every interleaving each model's chunks appear in their own order, as a prefix of
      its sequence whose length is its number of turns, capped at its length. */
  lemma {:induction false} InterleaveProjection(per: seq<seq<StreamChunk>>, schedule: seq<nat>)
    ensures var st := Interleave(per, schedule);
      |st.out| == |st.origin|
      && (forall k :: 0 <= k < |st.origin| ==> st.origin[k] < |per|)
      && forall i :: 0 <= i < |per| ==>
        st.pos[i] == Min(Turns(schedule, i), |per[i]|) && Project(st.out, st.origin, i) == per[i][..st.pos[i]]
  {
    if |schedule| > 0 {
      var front := schedule[..|schedule| - 1];
      var j := schedule[|schedule| - 1];
      InterleaveProjection(per, front);
      var prev := Interleave(per, front);
      var st := Interleave(per, schedule);
      forall i | 0 <= i < |per|
        ensures st.pos[i] == Min(Turns(schedule, i), |per[i]|) && Project(st.out, st.origin, i) == per[i][..st.pos[i]]
      {
        StepProjection(per, prev, j, i, Turns(front, i));
      }
      if j < |per| && prev.pos[j] < |per[j]| {
        forall k | 0 <= k < |st.origin| ensures st.origin[k] < |per| {
          if k < |prev.origin| {
            assert st.origin[k] == prev.origin[k];
          }
        }
      }
    }
  }

  /** One turn of model `j` extends model `i`'s projection by its next chunk when `i` is
      `j` and has one left, and keeps it otherwise. */
  lemma StepProjection(per: seq<seq<StreamChunk>>, prev: MuxState, j: nat, i: nat, turns: nat)
    requires |prev.pos| == |per| && |prev.out| == |prev.origin| && i < |per|
    requires prev.pos[i] == Min(turns, |per[i]|) && Project(prev.out, prev.origin, i) == per[i][..prev.pos[i]]
    ensures var st := Step(per, prev, j);
      st.pos[i] == Min(turns + (if j == i then 1 else 0), |per[i]|)
      && Project(st.out, st.origin, i) == per[i][..st.pos[i]]
  {
    var st := Step(per, prev, j);
    if j < |per| && prev.pos[j] < |per[j]| {
      assert st.out[..|st.out| - 1] == prev.out;
      assert st.origin[..|st.origin| - 1] == prev.origin;
      if i == j {
        assert per[i][..prev.pos[i] + 1] == per[i][..prev.pos[i]] + [per[i][prev.pos[i]]];
      }
    }
  }

  /** The `Promise.all` and `controller.close()`: the pending set holds the models whose
      terminal chunk has not been sent; the stream closes once it is empty. */
  method Multiplex(per: seq<seq<StreamChunk>>, schedule: seq<nat>) returns (out: seq<StreamChunk>, closed: bool)
    requires forall i :: 0 <= i < |per| ==> WellFormed(per[i])
    ensures out == Interleave(per, schedule).out
    ensures closed <==> forall i :: 0 <= i < |per| ==> Interleave(per, schedule).pos[i] == |per[i]|
  {
    var pos: seq<nat> := seq(|per|, _ => 0);
    ghost var origin: seq<nat> := [];
    var pending := set i | 0 <= i < |per| && pos[i] < |per[i]|;
    out := [];
    for k := 0 to |schedule|
      invariant Interleave(per, schedule[..k]) == MuxState(out, origin, pos)
      invariant forall i :: 0 <= i < |per| ==> pos[i] <= |per[i]|
      invariant forall i :: i in pending <==> 0 <= i < |per| && pos[i] < |per[i]|
    {
      assert schedule[..k + 1][..k] == schedule[..k];
      var i := schedule[k];
      if i < |per| && pos[i] < |per[i]| {
        var c := per[i][pos[i]];
        out := out + [c];
        origin := origin + [i];
        pos := pos[i := pos[i] + 1];
        if c.kind != ContentChunk {
          pending := pending - {i};
        }
      }
    }
    assert schedule[..|schedule|] == schedule;
    closed := pending == {};
    if closed {
      forall i | 0 <= i < |per| ensures pos[i] == |per[i]| {
        assert i !in pending;
      }
    } else {
      assert exists i :: 0 <= i < |per| && pos[i] < |per[i]| by {
        if forall i :: 0 <= i < |per| ==> pos[i] >= |per[i]| {
          assert forall x :: x !in pending;
        }
      }
    }
  }

  /** A schedule that gives every model at least as many turns as it has chunks sends
      everything and closes the stream. */
  lemma FairScheduleCloses(per: seq<seq<StreamChunk>>, schedule: seq<nat>)
    requires forall i :: 0 <= i < |per| ==> Turns(schedule, i) >= |per[i]|
    ensures forall i :: 0 <= i < |per| ==> Interleave(per, schedule).pos[i] == |per[i]|
  {
    InterleaveProjection(per, schedule);
  }
}
