/** The arena page (src/components/arena.tsx): when execution may start, its own copy of
    the execution flow (with the guest-limit reply), reset and the per-slot and per-model
    lookups. Prompts, selection and `isExecuting` live in the arena context; responses
    and the evaluation are page state. */
module Arena {
  import opened Util
  import opened Models
  import opened Prompts
  import opened ModelSelection
  import opened Responses
  import opened UseExecution
  import opened ArenaContext

  const GUEST_LIMIT_MESSAGE := "Guest execution limit reached. Please log in to continue."

  /** `canExecute`; `guestLimitReached` comes from the auth context. */
  predicate CanExecute(st: ContextState, guestLimitReached: bool) {
    IsValid(st.prompts) && HasModels(st.selectedModels) && !st.isExecuting && !guestLimitReached
  }

  /** Execution may start exactly when the user prompt has a non-whitespace character,
      a model is selected, nothing is running and the guest limit is not reached. */
  lemma CanExecuteMeaning(st: ContextState, guestLimitReached: bool)
    ensures CanExecute(st, guestLimitReached) <==>
      (exists i :: 0 <= i < |st.prompts.userPrompt| && !IsWhitespace(st.prompts.userPrompt[i]))
      && st.selectedModels != [] && !st.isExecuting && !guestLimitReached
  {
    ContextFlags(st);
  }

  /** The JSON body of an error reply, as far as the page reads it; `None` when it does
      not parse (`.catch(() => ({}))`). */
  datatype LimitBody = LimitBody(isGuestLimitError: bool, message: Option<string>)

  /** Whether a reply is the guest-limit rejection. */
  predicate IsGuestLimit(status: nat, body: Option<LimitBody>) {
    status == 429 && body.Some? && body.value.isGuestLimitError
  }

  /** The message of the error thrown for a non-OK reply. */
  function RejectionMessage(status: nat, body: Option<LimitBody>): (m: string)
    ensures !IsGuestLimit(status, body) ==> m == HttpError(status)
    ensures IsGuestLimit(status, body) && body.value.message.Some? && body.value.message.value != ""
      ==> m == body.value.message.value
    ensures IsGuestLimit(status, body) && (body.value.message.None? || body.value.message.value == "")
      ==> m == GUEST_LIMIT_MESSAGE
  {
    if IsGuestLimit(status, body) then
      if body.value.message.Some? && body.value.message.value != "" then body.value.message.value
      else GUEST_LIMIT_MESSAGE
    else HttpError(status)
  }

  /** The table the page's `execute` leaves behind: the hook's result, except that a
      non-OK reply fails with `RejectionMessage`. */
  function ArenaResult(selected: seq<SelectedModel>, outcome: FetchOutcome, body: Option<LimitBody>,
                       dec: string -> Option<StreamChunk>): (r: Table)
    ensures r.Valid()
  {
    if outcome.Reply? && !Ok(outcome.status) then
      AfterFailure(InitTable(selected), ErrorOf(RejectionMessage(outcome.status, body)))
    else ExecutionResult(selected, outcome, dec)
  }

  /** The page and the hook agree on every outcome except the guest-limit rejection,
      which fails every selected model with the limit message instead. */
  lemma ArenaMatchesHook(selected: seq<SelectedModel>, outcome: FetchOutcome, body: Option<LimitBody>,
                         dec: string -> Option<StreamChunk>)
    ensures !(outcome.Reply? && IsGuestLimit(outcome.status, body))
      ==> ArenaResult(selected, outcome, body, dec) == ExecutionResult(selected, outcome, dec)
    ensures outcome.Reply? && IsGuestLimit(outcome.status, body) ==>
      var r := ArenaResult(selected, outcome, body, dec);
      (forall id :: id in r.entries <==> exists i :: 0 <= i < |selected| && selected[i].modelId == id)
      && (forall id :: id in r.entries ==>
            r.entries[id] == ModelResponse(id, "", false, false, true, Some(RejectionMessage(outcome.status, body)), None, None))
  {
    InitTableEntries(selected);
  }

  /** How often `refreshGuestStatus` is called: once on the guest-limit rejection, and
      once more at the end for a guest. */
  function Refreshes(outcome: FetchOutcome, body: Option<LimitBody>, isGuest: bool): (n: nat)
    ensures n <= 2
    ensures !isGuest ==> (n == 1 <==> outcome.Reply? && IsGuestLimit(outcome.status, body))
  {
    (if outcome.Reply? && IsGuestLimit(outcome.status, body) then 1 else 0) + (if isGuest then 1 else 0)
  }

  /** The body of `execute` from the initial table to the final one; `limitHit` says
      whether the guest-limit branch (and its status refresh) was taken. */
  method RunRequest(selected: seq<SelectedModel>, outcome: FetchOutcome, body: Option<LimitBody>,
                    dec: string -> Option<StreamChunk>) returns (t: Table, limitHit: bool)
    ensures t == ArenaResult(selected, outcome, body, dec)
    ensures limitHit <==> outcome.Reply? && IsGuestLimit(outcome.status, body)
  {
    t := BuildInitialTable(selected);
    limitHit := false;
    var failure: Option<Thrown> := None;
    match outcome {
      case FetchThrew(e) =>
        failure := Some(e);
      case Reply(status, hasBody, pieces, end) =>
        if !Ok(status) {
          limitHit := IsGuestLimit(status, body);
          failure := Some(ErrorOf(RejectionMessage(status, body)));
        } else if !hasBody {
          failure := Some(ErrorOf("No response body"));
        } else {
          t := ReadStream(selected, pieces, dec);
          if end.ReadThrew? {
            failure := Some(end.error);
          }
        }
    }
    if failure.Some? && !IsAbort(failure.value) {
      t := MarkStreamingFailed(t, FailureMessage(failure.value));
    }
  }

  class ArenaState {
    var context: ContextState
    var responses: Table
    var evaluation: Option<string>
    /** `abortControllerRef.current !== null` */
    var controllerActive: bool
    /** The number of `refreshGuestStatus` calls made so far. */
    var guestRefreshes: nat

    ghost predicate Valid()
      reads this
    {
      responses.Valid()
    }

    constructor (context: ContextState)
      ensures Valid() && this.context == context && responses == EmptyTable
      ensures evaluation.None? && !controllerActive && guestRefreshes == 0
    {
      this.context := context;
      responses := EmptyTable;
      evaluation := None;
      controllerActive := false;
      guestRefreshes := 0;
    }

    /** `execute()`. The network is represented by `outcome` and, for an error reply, by
        its parsed body; `dec` is `JSON.parse`; `isGuest` comes from the auth context. */
    method Execute(outcome: FetchOutcome, body: Option<LimitBody>, dec: string -> Option<StreamChunk>, isGuest: bool)
      requires Valid()
      modifies this
      ensures Valid()
      ensures responses == ArenaResult(old(context.selectedModels), outcome, body, dec)
      ensures evaluation.None? && !context.isExecuting && !controllerActive
      ensures context.prompts == old(context.prompts) && context.selectedModels == old(context.selectedModels)
      ensures guestRefreshes == old(guestRefreshes) + Refreshes(outcome, body, isGuest)
    {
      var selected := context.selectedModels;
      context := SetIsExecuting(context, true);
      evaluation := None;
      controllerActive := true;
      var limitHit;
      responses, limitHit := RunRequest(selected, outcome, body, dec);
      if limitHit {
        guestRefreshes := guestRefreshes + 1;
      }
      context := SetIsExecuting(context, false);
      controllerActive := false;
      if isGuest {
        guestRefreshes := guestRefreshes + 1;
      }
    }

    /** `handleReset()` */
    method HandleReset()
      modifies this
      ensures Valid() && !context.isExecuting && !controllerActive
      ensures responses == EmptyTable && !Responses.HasResponses(responses) && evaluation.None?
      ensures context.prompts == old(context.prompts) && context.selectedModels == old(context.selectedModels)
      ensures guestRefreshes == old(guestRefreshes)
    {
      controllerActive := false;
      context := SetIsExecuting(context, false);
      responses := EmptyTable;
      evaluation := None;
    }

    /** `handleClearAll()`: the prompts are cleared as well; the selection stays. */
    method HandleClearAll()
      modifies this
      ensures Valid() && !context.isExecuting && !controllerActive
      ensures responses == EmptyTable && evaluation.None?
      ensures context.prompts == EMPTY_PROMPTS
      ensures context.selectedModels == old(context.selectedModels)
      ensures guestRefreshes == old(guestRefreshes)
    {
      context := ClearPromptsIn(context);
      HandleReset();
    }

    /** `getModelIdForSlot(slot)`: `model?.id || null`. */
    function GetModelIdForSlot(slot: Slot): (r: Option<string>)
      reads this
      ensures r.Some? ==> (GetModelForSlot(context.selectedModels, slot).Some?
        && r.value == GetModelForSlot(context.selectedModels, slot).value.id)
    {
      match GetModelForSlot(context.selectedModels, slot)
      case None => None
      case Some(m) => if m.id != "" then Some(m.id) else None
    }

    /** `getResponseForModel(modelId)`: `responses.get(modelId) || null`. */
    function GetResponseForModel(modelId: string): (r: Option<ModelResponse>)
      reads this
      ensures r.None? <==> modelId !in responses.entries
      ensures r.Some? ==> r.value == responses.entries[modelId]
    {
      Get(responses, modelId)
    }
  }

  /** A registry id is never empty, so a slot shows an id exactly when `getModelForSlot`
      finds its model, and that id is the slot's first selected model. */
  lemma ModelIdForSlotMeaning(a: ArenaState, slot: Slot)
    ensures a.GetModelIdForSlot(slot).Some? <==> GetModelForSlot(a.context.selectedModels, slot).Some?
    ensures a.GetModelIdForSlot(slot).Some? ==> a.GetModelIdForSlot(slot).value == OfSlot(a.context.selectedModels, slot)[0].modelId
  {
    var m := GetModelForSlot(a.context.selectedModels, slot);
    if m.Some? {
      RegistryWellFormed();
    }
  }
}
