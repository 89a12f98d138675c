/** The arena context of src/contexts/arena-context.tsx: prompts, the slot selection and
    the `isExecuting` flag shared by the arena page. Its prompt and selection updaters are
    the same expressions as in src/hooks/use-prompts.ts and src/hooks/use-model-selection.ts,
    so they are the functions of the Prompts and ModelSelection modules applied to one
    part of the context state. */
module ArenaContext {
  import opened Util
  import opened Models
  import opened Prompts
  import opened ModelSelection

  datatype ContextState = ContextState(prompts: PromptState, selectedModels: seq<SelectedModel>, isExecuting: bool)

  const INITIAL := ContextState(EMPTY_PROMPTS, [], false)

  /** `setSystemPrompt(value)`: only the system prompt changes. */
  function SetSystemPromptIn(st: ContextState, value: string): (r: ContextState)
    ensures r.prompts.systemPrompt == value && r.prompts.userPrompt == st.prompts.userPrompt
    ensures r.selectedModels == st.selectedModels && r.isExecuting == st.isExecuting
  {
    st.(prompts := SetSystemPrompt(st.prompts, value))
  }

  /** `setUserPrompt(value)`: only the user prompt changes. */
  function SetUserPromptIn(st: ContextState, value: string): (r: ContextState)
    ensures r.prompts.userPrompt == value && r.prompts.systemPrompt == st.prompts.systemPrompt
    ensures r.selectedModels == st.selectedModels && r.isExecuting == st.isExecuting
  {
    st.(prompts := SetUserPrompt(st.prompts, value))
  }

  /** `clearPrompts()`: both prompts empty and nothing else touched; by
      `Prompts.EmptyInvalid` the context is then no longer valid. */
  function ClearPromptsIn(st: ContextState): (r: ContextState)
    ensures r.prompts == EMPTY_PROMPTS
    ensures r.selectedModels == st.selectedModels && r.isExecuting == st.isExecuting
  {
    st.(prompts := ClearPrompts(st.prompts))
  }

  /** `selectModel(slot, modelId)`: the selection changes as `ModelSelection.SelectModel`
      says, the prompts and the flag do not; a non-empty id then owns the slot alone and
      the selection is sorted by slot. */
  function SelectModelIn(st: ContextState, slot: Slot, modelId: string): (r: ContextState)
    ensures r.prompts == st.prompts && r.isExecuting == st.isExecuting
    ensures modelId != "" ==> OfSlot(r.selectedModels, slot) == [SelectedModel(slot, modelId)] && SortedBySlot(r.selectedModels)
    ensures modelId == "" ==> OfSlot(r.selectedModels, slot) == []
    ensures forall k: Slot :: k != slot ==> OfSlot(r.selectedModels, k) == OfSlot(st.selectedModels, k)
  {
    var next := st.(selectedModels := SelectModel(st.selectedModels, slot, modelId));
    if modelId != "" then
      SelectModelEffect(st.selectedModels, slot, modelId);
      next
    else
      ClearModelEffect(st.selectedModels, slot);
      next
  }

  /** `clearModel(slot)` */
  function ClearModelIn(st: ContextState, slot: Slot): (r: ContextState)
    ensures r.prompts == st.prompts && r.isExecuting == st.isExecuting
    ensures OfSlot(r.selectedModels, slot) == []
    ensures forall k: Slot :: k != slot ==> OfSlot(r.selectedModels, k) == OfSlot(st.selectedModels, k)
  {
    ClearModelEffect(st.selectedModels, slot);
    st.(selectedModels := ClearModel(st.selectedModels, slot))
  }

  /** `loadModels(models)`: the loaded models sorted by slot with `Array.prototype.sort`;
      the result holds exactly the given models, sorted, each slot's models in the given
      order. */
  function LoadModels(st: ContextState, models: seq<SelectedModel>): (r: ContextState)
    ensures r.prompts == st.prompts && r.isExecuting == st.isExecuting
    ensures SortedBySlot(r.selectedModels)
    ensures multiset(r.selectedModels) == multiset(models)
    ensures forall k: Slot :: OfSlot(r.selectedModels, k) == OfSlot(models, k)
  {
    SortBySlotSorted(models);
    SortBySlotPermutation(models);
    st.(selectedModels := SortBySlot(models))
  }

  /** `setIsExecuting(value)` */
  function SetIsExecuting(st: ContextState, value: bool): (r: ContextState)
    ensures r.isExecuting == value && r.prompts == st.prompts && r.selectedModels == st.selectedModels
  {
    st.(isExecuting := value)
  }

  /** `isValid` and `hasModels` of the context: the trimmed user prompt is non-empty,
      and the selection is non-empty. */
  lemma ContextFlags(st: ContextState)
    ensures IsValid(st.prompts) <==> exists i :: 0 <= i < |st.prompts.userPrompt| && !IsWhitespace(st.prompts.userPrompt[i])
    ensures HasModels(st.selectedModels) <==> st.selectedModels != []
  {
    IsValidMeaning(st.prompts);
  }
}
