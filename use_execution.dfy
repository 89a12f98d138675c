/** The execution hook (src/hooks/use-execution.ts): one POST to the execute route, the
    response stream read into the per-model table, the failure handling, and the
    `cancel`, `reset`, `getResponseForModel`, `allComplete` and `hasResponses` members. */
module UseExecution {
  import opened Util
  import opened Models
  import opened LineBuffer
  import opened Responses

  /** `error instanceof Error && error.name === "AbortError"` */
  predicate IsAbort(e: Thrown) {
    e.isError && e.name == "AbortError"
  }

  /** `error instanceof Error ? error.message : "Unknown error"` */
  function FailureMessage(e: Thrown): (m: string)
    ensures !e.isError ==> m == "Unknown error"
    ensures e.isError ==> m == e.message
  {
    if e.isError then e.message else "Unknown error"
  }

  /** How the read loop ended: `done`, or `reader.read()` threw. */
  datatype ReadEnd = StreamDone | ReadThrew(error: Thrown)

  /** What `fetch` and the reader deliver: `fetch` threw, or a reply with its status,
      whether it has a body, the decoded pieces read in order and how reading ended. */
  datatype FetchOutcome =
    | FetchThrew(error: Thrown)
    | Reply(status: nat, hasBody: bool, pieces: seq<string>, end: ReadEnd)

  /** `response.ok` */
  predicate Ok(status: nat) {
    200 <= status <= 299
  }

  /** `HTTP error: ${response.status}` */
  function HttpError(status: nat): string {
    "HTTP error: " + NatToString(status)
  }

  /** The catch block: an abort leaves the table as it is, any other failure marks the
      models still streaming as failed. */
  function AfterFailure(t: Table, e: Thrown): (r: Table)
    requires t.Valid()
    ensures r.Valid() && r.keys == t.keys
    ensures IsAbort(e) ==> r == t
  {
    if IsAbort(e) then t else FailStreaming(t, FailureMessage(e))
  }

  /** The table after reading every piece of a readable reply. */
  function StreamedTable(selected: seq<SelectedModel>, pieces: seq<string>, dec: string -> Option<StreamChunk>): (r: Table)
    ensures r.Valid()
  {
    ApplyLines(InitTable(selected), Lines(Concat(pieces)), dec)
  }

  /** The table `execute` leaves behind for a given outcome of the request. */
  function ExecutionResult(selected: seq<SelectedModel>, outcome: FetchOutcome, dec: string -> Option<StreamChunk>): (r: Table)
    ensures r.Valid()
  {
    match outcome
    case FetchThrew(e) => AfterFailure(InitTable(selected), e)
    case Reply(status, hasBody, pieces, end) =>
      if !Ok(status) then AfterFailure(InitTable(selected), ErrorOf(HttpError(status)))
      else if !hasBody then AfterFailure(InitTable(selected), ErrorOf("No response body"))
      else
        match end
        case StreamDone => StreamedTable(selected, pieces, dec)
        case ReadThrew(e) => AfterFailure(StreamedTable(selected, pieces, dec), e)
  }

  /** A failed request (an error status or no body) leaves every selected model failed
      with that message, and nothing else in the table. */
  lemma RejectedRequestFailsAll(selected: seq<SelectedModel>, outcome: FetchOutcome, dec: string -> Option<StreamChunk>)
    requires outcome.Reply? && (!Ok(outcome.status) || !outcome.hasBody)
    ensures var r := ExecutionResult(selected, outcome, dec);
      var msg := if !Ok(outcome.status) then HttpError(outcome.status) else "No response body";
      (forall id :: id in r.entries <==> exists i :: 0 <= i < |selected| && selected[i].modelId == id)
      && (forall id :: id in r.entries ==> r.entries[id] == ModelResponse(id, "", false, false, true, Some(msg), None, None))
  {
    var msg := if !Ok(outcome.status) then HttpError(outcome.status) else "No response body";
    var init := InitTable(selected);
    assert ExecutionResult(selected, outcome, dec) == FailStreaming(init, msg);
    InitTableEntries(selected);
    forall id | id in init.entries
      ensures FailStreaming(init, msg).entries[id] == ModelResponse(id, "", false, false, true, Some(msg), None, None)
    {
      assert init.entries[id] == Fresh(id);
    }
  }

  /** An aborted request leaves the freshly initialised table. */
  lemma AbortKeepsInit(selected: seq<SelectedModel>, e: Thrown, dec: string -> Option<StreamChunk>)
    requires IsAbort(e)
    ensures ExecutionResult(selected, FetchThrew(e), dec) == InitTable(selected)
    ensures forall id :: id in InitTable(selected).entries ==> InitTable(selected).entries[id].isStreaming
  {
    InitTableEntries(selected);
  }

  /** Only the complete lines of the concatenated input count: the result of a readable
      reply depends on its pieces only through their concatenation. */
  lemma ResultIgnoresChunking(selected: seq<SelectedModel>, p1: seq<string>, p2: seq<string>, status: nat, end: ReadEnd, dec: string -> Option<StreamChunk>)
    requires Concat(p1) == Concat(p2)
    ensures ExecutionResult(selected, Reply(status, true, p1, end), dec) == ExecutionResult(selected, Reply(status, true, p2, end), dec)
  {
  }

  /** A final line that is never terminated by a newline is never applied. */
  lemma UnterminatedTailIgnored(selected: seq<SelectedModel>, pieces: seq<string>, tail: string, dec: string -> Option<StreamChunk>)
    requires NoNewline(tail) && NoNewline(Rest(Concat(pieces)))
    ensures StreamedTable(selected, pieces + [tail], dec) == StreamedTable(selected, pieces, dec)
  {
    var s := Concat(pieces);
    ConcatAppend(pieces, [tail]);
    assert Concat([tail]) == tail;
    LinesAppend(s, tail);
    assert NoNewline(Rest(s) + tail);
    SplitNoNewline(Rest(s) + tail);
    assert Lines(Rest(s) + tail) == [];
    assert Lines(s + tail) == Lines(s);
  }

  /** The hook's state. `controllerActive` stands for `abortControllerRef.current !== null`. */
  class Execution {
    var isExecuting: bool
    var responses: Table
    var controllerActive: bool

    ghost predicate Valid()
      reads this
    {
      responses.Valid()
    }

    constructor ()
      ensures Valid() && !isExecuting && responses == EmptyTable && !controllerActive
    {
      isExecuting := false;
      responses := EmptyTable;
      controllerActive := false;
    }

    /** `execute(systemPrompt, userPrompt, selectedModels)`. The prompts only go into the
        request body, so the reply to that body and the network are represented by
        `outcome` (`ExecuteRoute.AdmitsRegisteredSelection` says how the route reads the
        body); `dec` is `JSON.parse`. */
    method Execute(selected: seq<SelectedModel>, outcome: FetchOutcome, dec: string -> Option<StreamChunk>)
      requires Valid()
      modifies this
      ensures Valid()
      ensures responses == ExecutionResult(selected, outcome, dec)
      ensures !isExecuting && !controllerActive
    {
      isExecuting := true;
      responses := BuildInitialTable(selected);
      controllerActive := true;
      var failure: Option<Thrown> := None;
      match outcome {
        case FetchThrew(e) =>
          failure := Some(e);
        case Reply(status, hasBody, pieces, end) =>
          if !Ok(status) {
            failure := Some(ErrorOf(HttpError(status)));
          } else if !hasBody {
            failure := Some(ErrorOf("No response body"));
          } else {
            responses := ReadStream(selected, pieces, dec);
            if end.ReadThrew? {
              failure := Some(end.error);
            }
          }
      }
      if failure.Some? && !IsAbort(failure.value) {
        responses := MarkStreamingFailed(responses, FailureMessage(failure.value));
      }
      isExecuting := false;
      controllerActive := false;
    }

    /** `cancel()` */
    method Cancel()
      modifies this
      ensures !isExecuting && !controllerActive && responses == old(responses)
    {
      controllerActive := false;
      isExecuting := false;
    }

    /** `reset()`: cancel and empty the table. */
    method Reset()
      modifies this
      ensures Valid() && !isExecuting && !controllerActive && responses == EmptyTable
      ensures !HasResponses() && AllComplete()
    {
      Cancel();
      responses := EmptyTable;
    }

    /** `getResponseForModel(modelId)` */
    function GetResponseForModel(modelId: string): (r: Option<ModelResponse>)
      reads this
      ensures r.None? <==> modelId !in responses.entries
      ensures r.Some? ==> r.value == responses.entries[modelId]
    {
      Get(responses, modelId)
    }

    /** `allComplete` */
    predicate AllComplete()
      reads this
    {
      Responses.AllComplete(responses)
    }

    /** `hasResponses` */
    predicate HasResponses()
      reads this
    {
      Responses.HasResponses(responses)
    }
  }

  /** The `while (true)` read loop over the decoded pieces of a readable reply, feeding
      each into a stream accumulator that starts from the initial table. */
  method ReadStream(selected: seq<SelectedModel>, pieces: seq<string>, dec: string -> Option<StreamChunk>) returns (t: Table)
    ensures t == StreamedTable(selected, pieces, dec)
  {
    var init := BuildInitialTable(selected);
    var acc := new StreamAccumulator(init, dec);
    var i := 0;
    while i < |pieces|
      invariant 0 <= i <= |pieces|
      invariant acc.Valid() && acc.dec == dec
      invariant acc.table == ApplyLines(init, Lines(Concat(pieces[..i])), dec)
      invariant acc.buffer == Rest(Concat(pieces[..i]))
    {
      ghost var before := Concat(pieces[..i]);
      acc.Feed(pieces[i]);
      assert pieces[..i + 1] == pieces[..i] + [pieces[i]];
      ConcatAppend(pieces[..i], [pieces[i]]);
      assert Concat([pieces[i]]) == pieces[i];
      LinesAppend(before, pieces[i]);
      ApplyLinesAppend(init, Lines(before), Lines(Rest(before) + pieces[i]), dec);
      i := i + 1;
    }
    assert pieces[..i] == pieces;
    t := acc.table;
  }

  /** The `initialResponses` loop. */
  method BuildInitialTable(selected: seq<SelectedModel>) returns (t: Table)
    ensures t == InitTable(selected)
    ensures forall id :: id in t.entries <==> exists i :: 0 <= i < |selected| && selected[i].modelId == id
    ensures forall id :: id in t.entries ==> t.entries[id] == Fresh(id)
  {
    t := EmptyTable;
    for i := 0 to |selected|
      invariant t == InitTable(selected[..i])
    {
      assert selected[..i + 1][..i] == selected[..i];
      t := Set(t, selected[i].modelId, Fresh(selected[i].modelId));
    }
    assert selected[..|selected|] == selected;
    InitTableEntries(selected);
  }

  /** `allComplete` holds exactly when every entry is complete or failed; an empty table
      is complete. */
  lemma AllCompleteMeaning(t: Table)
    ensures AllComplete(t) <==> forall k :: k in t.entries ==> t.entries[k].isComplete || t.entries[k].isError
    ensures t.entries == map[] ==> AllComplete(t) && !HasResponses(t)
  {
  }

  /** After a non-abort failure no entry is still streaming: the streaming entries fail
      with the message and keep their content, the others are untouched, so a table whose
      entries were each streaming, complete or failed becomes complete. */
  lemma FailureCompletes(t: Table, e: Thrown)
    requires t.Valid() && !IsAbort(e)
    ensures (forall k :: k in t.entries ==> t.entries[k].isStreaming || t.entries[k].isComplete || t.entries[k].isError)
      ==> AllComplete(AfterFailure(t, e))
    ensures forall k :: k in t.entries && !t.entries[k].isStreaming ==> AfterFailure(t, e).entries[k] == t.entries[k]
    ensures forall k :: k in t.entries && t.entries[k].isStreaming ==>
      (AfterFailure(t, e).entries[k].isError && AfterFailure(t, e).entries[k].error == Some(FailureMessage(e))
       && AfterFailure(t, e).entries[k].content == t.entries[k].content)
  {
    assert forall k :: k in t.entries ==> k in AfterFailure(t, e).entries;
  }
}
