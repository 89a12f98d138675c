/** The prompt state of src/hooks/use-prompts.ts (the same transitions are written out
    again in src/contexts/arena-context.tsx:42-59). Each transition maps the previous
    state to the next one, as the `setPrompts` updater functions do. */
module Prompts {
  import opened Util

  datatype PromptState = PromptState(systemPrompt: string, userPrompt: string)

  const EMPTY_PROMPTS := PromptState("", "")

  /** `setSystemPrompt(value)`: only the system prompt changes. */
  function SetSystemPrompt(prev: PromptState, value: string): (r: PromptState)
    ensures r.systemPrompt == value && r.userPrompt == prev.userPrompt
  {
    prev.(systemPrompt := value)
  }

  /** `setUserPrompt(value)`: only the user prompt changes. */
  function SetUserPrompt(prev: PromptState, value: string): (r: PromptState)
    ensures r.userPrompt == value && r.systemPrompt == prev.systemPrompt
  {
    prev.(userPrompt := value)
  }

  /** `clearPrompts()` */
  function ClearPrompts(prev: PromptState): (r: PromptState)
    ensures r.systemPrompt == "" && r.userPrompt == ""
  {
    EMPTY_PROMPTS
  }

  /** The cleared state is not valid. */
  lemma EmptyInvalid()
    ensures !IsValid(EMPTY_PROMPTS)
  {
    assert TrimStart("") == "";
    assert TrimEnd("") == "";
  }

  /** `loadPrompts(newPrompts)`: the loaded state replaces the old one. */
  function LoadPrompts(prev: PromptState, loaded: PromptState): (r: PromptState)
    ensures r == loaded
  {
    loaded
  }

  /** `prompts.userPrompt.trim().length > 0` */
  predicate IsValid(p: PromptState) {
    |Trim(p.userPrompt)| > 0
  }

  /** A prompt is valid exactly when its user prompt has a character that is not
      whitespace; the system prompt plays no part, and a whitespace-only prompt is invalid. */
  lemma IsValidMeaning(p: PromptState)
    ensures IsValid(p) <==> exists i :: 0 <= i < |p.userPrompt| && !IsWhitespace(p.userPrompt[i])
  {
    TrimEmptyIffAllWhitespace(p.userPrompt);
  }

  /** A user prompt made only of Unicode space separators, such as the ideographic space
      or the byte order mark, is not valid: `trim()` removes them. */
  lemma UnicodeSpacesInvalid(p: PromptState)
    requires p.userPrompt == "\U{3000}\U{FEFF}\U{2028}\U{205F}"
    ensures !IsValid(p)
  {
    IsValidMeaning(p);
  }

  /** Setting the system prompt never changes validity; after setting the user prompt,
      validity depends on the new user prompt alone. */
  lemma ValidityUnderTransitions(p: PromptState, v: string)
    ensures IsValid(SetSystemPrompt(p, v)) == IsValid(p)
    ensures IsValid(SetUserPrompt(p, v)) <==> exists i :: 0 <= i < |v| && !IsWhitespace(v[i])
  {
    assert SetSystemPrompt(p, v).userPrompt == p.userPrompt;
    IsValidMeaning(SetUserPrompt(p, v));
  }
}
