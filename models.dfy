/** The static model registry, the slot domain and the wire shape of a stream chunk
    (src/types/models.ts). */
module Models {
  import opened Util

  /** The three provider names of the `Provider` union. A registry entry stores the
      name as a string, so the callers' fall-through branches for any other name can
      be stated as well. */
  const OPENAI := "openai"
  const ANTHROPIC := "anthropic"
  const GOOGLE := "google"

  predicate IsProvider(p: string) {
    p == OPENAI || p == ANTHROPIC || p == GOOGLE
  }

  datatype ModelDefinition = ModelDefinition(
    id: string,
    name: string,
    provider: string,
    contextWindow: int,
    description: string)

  const AVAILABLE_MODELS: seq<ModelDefinition> := [
    ModelDefinition("gpt-4o", "GPT-4o", OPENAI, 128000, "Most capable OpenAI model"),
    ModelDefinition("gpt-4o-mini", "GPT-4o Mini", OPENAI, 128000, "Fast and cost-effective"),
    ModelDefinition("gpt-4-turbo", "GPT-4 Turbo", OPENAI, 128000, "Previous generation high-capability"),
    ModelDefinition("o1", "o1", OPENAI, 200000, "Advanced reasoning model"),
    ModelDefinition("o1-mini", "o1-mini", OPENAI, 128000, "Fast reasoning model"),
    ModelDefinition("claude-sonnet-4-5-20250929", "Claude Sonnet 4.5", ANTHROPIC, 200000, "Best balance of intelligence & speed"),
    ModelDefinition("claude-haiku-4-5-20251001", "Claude Haiku 4.5", ANTHROPIC, 200000, "Fastest model, near-frontier intelligence"),
    ModelDefinition("claude-opus-4-5-20251101", "Claude Opus 4.5", ANTHROPIC, 200000, "Maximum intelligence premium model"),
    ModelDefinition("claude-sonnet-4-20250514", "Claude Sonnet 4", ANTHROPIC, 200000, "Previous gen Sonnet - still excellent"),
    ModelDefinition("gemini-2.5-flash", "Gemini 2.5 Flash", GOOGLE, 1000000, "Fast & efficient (stable)"),
    ModelDefinition("gemini-2.5-pro", "Gemini 2.5 Pro", GOOGLE, 1000000, "Most capable Gemini (stable)"),
    ModelDefinition("gemini-2.0-flash", "Gemini 2.0 Flash", GOOGLE, 1000000, "Previous gen Flash"),
    ModelDefinition("gemini-1.5-pro", "Gemini 1.5 Pro", GOOGLE, 2000000, "2M context window")
  ]

  /** The `1 | 2 | 3` slot of a selection. */
  type Slot = s: int | 1 <= s <= 3 witness 1

  datatype SelectedModel = SelectedModel(slot: Slot, modelId: string)

  datatype Usage = Usage(promptTokens: nat, completionTokens: nat, totalTokens: nat)

  datatype ChunkType = ContentChunk | DoneChunk | ErrorChunk

  /** `StreamChunk`: every field but the model id and the type is optional. */
  datatype StreamChunk = StreamChunk(
    modelId: string,
    kind: ChunkType,
    content: Option<string>,
    finishReason: Option<string>,
    usage: Option<Usage>,
    latencyMs: Option<nat>,
    error: Option<string>)

  /** `models.find((m) => m.id === id)`: the first entry with that id. */
  function FindIn(models: seq<ModelDefinition>, id: string): (r: Option<ModelDefinition>)
    ensures r.Some? ==> r.value in models && r.value.id == id
    ensures r.None? <==> forall i :: 0 <= i < |models| ==> models[i].id != id
  {
    if |models| == 0 then None
    else if models[0].id == id then Some(models[0])
    else FindIn(models[1..], id)
  }

  /** `AVAILABLE_MODELS.find((m) => m.id === id)` */
  function FindModel(id: string): Option<ModelDefinition> {
    FindIn(AVAILABLE_MODELS, id)
  }

  /** `AVAILABLE_MODELS.some((am) => am.id === id)` */
  predicate IsRegistered(id: string) {
    FindModel(id).Some?
  }

  predicate IdsDistinct(models: seq<ModelDefinition>) {
    forall i, j :: 0 <= i < j < |models| ==> models[i].id != models[j].id
  }

  /** No two registry entries share an id. */
  lemma RegistryIdsDistinct()
    ensures IdsDistinct(AVAILABLE_MODELS)
  {
    var m := AVAILABLE_MODELS;
    // Ids of equal length differ at position 5, 7 or 9.
    forall i, j | 0 <= i < j < |m| ensures m[i].id != m[j].id {
      if |m[i].id| == |m[j].id| {
        assert |m[i].id| >= 10;
        assert m[i].id[5] != m[j].id[5] || m[i].id[7] != m[j].id[7] || m[i].id[9] != m[j].id[9];
      }
    }
  }

  /** With distinct ids, lookup by id recovers exactly the registry entry. */
  lemma {:induction false} FindInDistinct(models: seq<ModelDefinition>, k: nat)
    requires IdsDistinct(models)
    requires k < |models|
    ensures FindIn(models, models[k].id) == Some(models[k])
  {
    if k > 0 {
      assert models[0].id != models[k].id;
      FindInDistinct(models[1..], k - 1);
    }
  }

  /** Lookup by id is a function on the registry: each entry is found by its own id. */
  lemma FindModelOfEntry(k: nat)
    requires k < |AVAILABLE_MODELS|
    ensures FindModel(AVAILABLE_MODELS[k].id) == Some(AVAILABLE_MODELS[k])
  {
    RegistryIdsDistinct();
    FindInDistinct(AVAILABLE_MODELS, k);
  }

  /** Every registry entry has a non-empty id and name, names one of the three providers
      and has a positive context window. */
  lemma RegistryWellFormed()
    ensures forall m :: m in AVAILABLE_MODELS ==> m.id != "" && m.name != "" && IsProvider(m.provider) && m.contextWindow > 0
  {
    var ms := AVAILABLE_MODELS;
    forall k | 0 <= k < |ms| ensures ms[k].id != "" && ms[k].name != "" && IsProvider(ms[k].provider) && ms[k].contextWindow > 0 {
    }
  }
}
