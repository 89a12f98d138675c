/** The connectivity script scripts/test-models.ts: the request each provider test
    sends, the classification of one test into success, error or skipped, and the
    grouping and counting of the report. */
module TestModels {
  import opened Util
  import opened Models

  const TEST_PROMPT := "Reply with just the word 'ok'"
  const NO_KEY := "No API key configured"
  const TEST_CAP := 100

  /** A JavaScript number-valued property as the script may see it. */
  datatype JsNumber = Undefined | Null | Num(n: int) | NaN

  /** `Math.min(x, b)`: `undefined` and `NaN` give `NaN`, `null` counts as 0. */
  function MathMin(x: JsNumber, b: int): JsNumber {
    match x
    case Undefined => NaN
    case NaN => NaN
    case Null => Num(Min(0, b))
    case Num(n) => Num(Min(n, b))
  }

  /** `model.maxOutputTokens`: `ModelDefinition` declares no such property. */
  function ReadMaxOutputTokens(def: ModelDefinition): JsNumber {
    Undefined
  }

  /** The limits the script sends, as written, from the value it read: OpenAI's
      `max_tokens` (`None` when left out), Anthropic's `max_tokens` and Google's
      `maxOutputTokens` (`None` when left out). */
  datatype SentLimits = SentLimits(openai: Option<JsNumber>, anthropic: JsNumber, google: Option<JsNumber>)

  function AsWrittenLimits(maxTokens: JsNumber): (l: SentLimits)
    ensures maxTokens == Null ==> l == SentLimits(None, Num(TEST_CAP), None)
  {
    SentLimits(
      if maxTokens != Null then Some(Num(10)) else None,
      if maxTokens != Null then MathMin(maxTokens, TEST_CAP) else Num(TEST_CAP),
      if maxTokens != Null then Some(MathMin(maxTokens, TEST_CAP)) else None)
  }

  /** As written, every registered model is tested with `max_tokens: 10` on OpenAI (even
      a model whose limit should be left out) and with a `NaN` limit on Anthropic and
      Google. */
  lemma AsWrittenLimitsBroken(k: nat)
    requires k < |AVAILABLE_MODELS|
    ensures var l := AsWrittenLimits(ReadMaxOutputTokens(AVAILABLE_MODELS[k]));
      l.openai == Some(Num(10)) && l.anthropic == NaN && l.google == Some(NaN)
  {
  }

  /** The three test requests for a model whose output limit is `maxTokens` (`None` for
      a model that takes no limit). */
  datatype TestRequests = TestRequests(openaiMaxTokens: Option<int>, anthropicMaxTokens: int, googleMaxOutputTokens: Option<int>)

  /** The limits as intended: OpenAI sends 10 only for a model with a limit, Anthropic
      always sends a limit capped at 100, Google caps a given limit at 100. */
  function TestLimits(maxTokens: Option<int>): (r: TestRequests)
    ensures r.openaiMaxTokens.Some? <==> maxTokens.Some?
    ensures r.openaiMaxTokens.Some? ==> r.openaiMaxTokens.value == 10
    ensures r.anthropicMaxTokens <= TEST_CAP
    ensures maxTokens.Some? ==> r.anthropicMaxTokens == Min(maxTokens.value, TEST_CAP)
    ensures r.googleMaxOutputTokens.Some? <==> maxTokens.Some?
    ensures r.googleMaxOutputTokens.Some? ==> r.googleMaxOutputTokens.value <= TEST_CAP
  {
    TestRequests(
      if maxTokens.Some? then Some(10) else None,
      if maxTokens.Some? then Min(maxTokens.value, TEST_CAP) else TEST_CAP,
      if maxTokens.Some? then Some(Min(maxTokens.value, TEST_CAP)) else None)
  }

  /** On a defined limit the corrected limits agree with the script as written. */
  lemma TestLimitsAgree(maxTokens: Option<int>)
    ensures var w := AsWrittenLimits(if maxTokens.Some? then Num(maxTokens.value) else Null);
      var r := TestLimits(maxTokens);
      w.openai == (if r.openaiMaxTokens.Some? then Some(Num(r.openaiMaxTokens.value)) else None)
      && w.anthropic == Num(r.anthropicMaxTokens)
      && w.google == (if r.googleMaxOutputTokens.Some? then Some(Num(r.googleMaxOutputTokens.value)) else None)
  {
  }

  /** What a provider SDK call did: answered with a text or threw. */
  datatype CallOutcome = Answered(text: string) | CallThrew(error: Thrown)

  /** `{ response?, error? }` */
  datatype CallResult = CallResult(response: Option<string>, error: Option<string>)

  /** `testOpenAI`, `testAnthropic` or `testGoogle`: no client means no call. */
  function ProviderTest(clientPresent: bool, outcome: CallOutcome): (r: CallResult)
    ensures !clientPresent ==> r == CallResult(None, Some(NO_KEY))
    ensures clientPresent && outcome.Answered? ==> r == CallResult(Some(outcome.text), None)
    ensures clientPresent && outcome.CallThrew? ==> r == CallResult(None, Some(outcome.error.message))
  {
    if !clientPresent then CallResult(None, Some(NO_KEY))
    else
      match outcome
      case Answered(text) => CallResult(Some(text), None)
      case CallThrew(e) => CallResult(None, Some(e.message))
  }

  /** Which of the three clients exist. */
  datatype Keys = Keys(openai: bool, anthropic: bool, google: bool)

  datatype TestStatus = Success | Failure | Skipped

  datatype TestResult = TestResult(
    modelId: string, modelName: string, provider: string, maxOutputTokens: Option<int>,
    status: TestStatus, latencyMs: Option<nat>, error: Option<string>, response: Option<string>)

  /** The switch in `testModel`. */
  function CallFor(provider: string, keys: Keys, outcome: CallOutcome): (r: CallResult)
    ensures provider == OPENAI ==> r == ProviderTest(keys.openai, outcome)
    ensures provider == ANTHROPIC ==> r == ProviderTest(keys.anthropic, outcome)
    ensures provider == GOOGLE ==> r == ProviderTest(keys.google, outcome)
    ensures !IsProvider(provider) ==> r == CallResult(None, Some("Unknown provider"))
  {
    if provider == OPENAI then ProviderTest(keys.openai, outcome)
    else if provider == ANTHROPIC then ProviderTest(keys.anthropic, outcome)
    else if provider == GOOGLE then ProviderTest(keys.google, outcome)
    else CallResult(None, Some("Unknown provider"))
  }

  /** `testModel(model)`; `maxOutputTokens` is the model's output limit, `outcome` what
      the SDK did if called, `latencyMs` the measured time. */
  function TestModel(def: ModelDefinition, maxOutputTokens: Option<int>, keys: Keys, outcome: CallOutcome, latencyMs: nat): (r: TestResult)
    ensures r.modelId == def.id && r.modelName == def.name && r.provider == def.provider
    ensures var c := CallFor(def.provider, keys, outcome);
      (r.status == Skipped <==> c.error.Some? && Includes(c.error.value, "No API key"))
      && (r.status == Skipped ==> r.latencyMs.None? && r.response.None?)
      && (r.status == Failure <==> c.error.Some? && !Includes(c.error.value, "No API key") && c.error.value != "")
      && (r.status != Skipped ==> r.latencyMs == Some(latencyMs))
    ensures r.response.Some? ==> |r.response.value| <= 50
    ensures r.error == CallFor(def.provider, keys, outcome).error
  {
    var c := CallFor(def.provider, keys, outcome);
    if c.error.Some? && Includes(c.error.value, "No API key") then
      TestResult(def.id, def.name, def.provider, maxOutputTokens, Skipped, None, c.error, None)
    else
      TestResult(def.id, def.name, def.provider, maxOutputTokens,
                 if c.error.Some? && c.error.value != "" then Failure else Success,
                 Some(latencyMs), c.error,
                 if c.response.Some? then Some(c.response.value[..Min(50, |c.response.value|)]) else None)
  }

  /** A model whose provider has no key is skipped, whatever the SDK would have done. */
  lemma MissingKeySkips(def: ModelDefinition, maxOutputTokens: Option<int>, keys: Keys, outcome: CallOutcome, latencyMs: nat)
    requires (def.provider == OPENAI && !keys.openai) || (def.provider == ANTHROPIC && !keys.anthropic)
      || (def.provider == GOOGLE && !keys.google)
    ensures TestModel(def, maxOutputTokens, keys, outcome, latencyMs).status == Skipped
  {
    assert CallFor(def.provider, keys, outcome).error == Some(NO_KEY);
    assert StartsWith(NO_KEY, "No API key");
  }

  /** A model of an unknown provider is a failure, with the "Unknown provider" error. */
  lemma UnknownProviderFails(def: ModelDefinition, maxOutputTokens: Option<int>, keys: Keys, outcome: CallOutcome, latencyMs: nat)
    requires !IsProvider(def.provider)
    ensures TestModel(def, maxOutputTokens, keys, outcome, latencyMs).status == Failure
    ensures TestModel(def, maxOutputTokens, keys, outcome, latencyMs).error == Some("Unknown provider")
  {
    NoKeyNotInUnknown();
  }

  lemma NoKeyNotInUnknown()
    ensures !Includes("Unknown provider", "No API key")
  {
    var s := "Unknown provider";
    assert forall i :: 0 <= i <= |s| - 10 ==> s[i] != 'N' || s[i + 1] != 'o';
    NotIncluded(s, "No API key");
  }

  /** A text that has no occurrence of the first two characters of `sub` next to each
      other does not contain `sub`. */
  lemma {:induction false} NotIncluded(s: string, sub: string)
    requires |sub| >= 2
    requires forall i :: 0 <= i <= |s| - |sub| ==> s[i] != sub[0] || s[i + 1] != sub[1]
    ensures !Includes(s, sub)
    decreases |s|
  {
    if |s| > 0 {
      if |sub| <= |s| {
        assert s[0] != sub[0] || s[1] != sub[1];
        assert s[..|sub|][0] == s[0] && s[..|sub|][1] == s[1];
      }
      forall i | 0 <= i <= |s[1..]| - |sub| ensures s[1..][i] != sub[0] || s[1..][i + 1] != sub[1] {
        assert s[1..][i] == s[i + 1] && s[1..][i + 1] == s[i + 2];
      }
      NotIncluded(s[1..], sub);
    }
  }

  /** The sequential loop of `main` over a list of models: one result per model, in
      order. `test(k, m)` is the run of `testModel` on the k-th model `m`. */
  method TestEach(models: seq<ModelDefinition>, test: (nat, ModelDefinition) -> TestResult)
    returns (results: seq<TestResult>)
    ensures |results| == |models|
    ensures forall k :: 0 <= k < |results| ==> results[k] == test(k, models[k])
  {
    results := [];
    for k := 0 to |models|
      invariant |results| == k
      invariant forall j :: 0 <= j < k ==> results[j] == test(j, models[j])
    {
      var result := test(k, models[k]);
      results := results + [result];
    }
  }

  /** `main`: every registered model is tested, in registry order. `limits(k)`,
      `outcomes(k)` and `latencies(k)` are the output limit, the SDK outcome and the
      measured latency of the k-th model. */
  method TestAll(keys: Keys, limits: nat -> Option<int>, outcomes: nat -> CallOutcome, latencies: nat -> nat)
    returns (results: seq<TestResult>)
    ensures |results| == |AVAILABLE_MODELS|
    ensures forall k :: 0 <= k < |results| ==>
      results[k] == TestModel(AVAILABLE_MODELS[k], limits(k), keys, outcomes(k), latencies(k))
  {
    results := TestEach(AVAILABLE_MODELS,
      (k: nat, m: ModelDefinition) => TestModel(m, limits(k), keys, outcomes(k), latencies(k)));
  }

  /** With no key at all, every registered model is reported as skipped. */
  lemma NoKeysAllSkipped(k: nat, limit: Option<int>, outcome: CallOutcome, latencyMs: nat)
    requires k < |AVAILABLE_MODELS|
    ensures TestModel(AVAILABLE_MODELS[k], limit, Keys(false, false, false), outcome, latencyMs).status == Skipped
  {
    RegistryWellFormed();
    assert AVAILABLE_MODELS[k] in AVAILABLE_MODELS;
    MissingKeySkips(AVAILABLE_MODELS[k], limit, Keys(false, false, false), outcome, latencyMs);
  }

  function CountStatus(rs: seq<TestResult>, st: TestStatus): (n: nat)
    ensures n <= |rs|
  {
    if |rs| == 0 then 0 else CountStatus(rs[..|rs| - 1], st) + (if rs[|rs| - 1].status == st then 1 else 0)
  }

  /** Working, failed and skipped add up to the number of results. */
  lemma {:induction false} StatusCountsSum(rs: seq<TestResult>)
    ensures CountStatus(rs, Success) + CountStatus(rs, Failure) + CountStatus(rs, Skipped) == |rs|
  {
    if |rs| > 0 {
      StatusCountsSum(rs[..|rs| - 1]);
    }
  }

  /** The providers in order of first appearance. */
  function Providers(rs: seq<TestResult>): (ps: seq<string>)
    ensures forall i, j :: 0 <= i < j < |ps| ==> ps[i] != ps[j]
    ensures forall p :: p in ps <==> exists k :: 0 <= k < |rs| && rs[k].provider == p
  {
    if |rs| == 0 then []
    else
      var front := Providers(rs[..|rs| - 1]);
      var p := rs[|rs| - 1].provider;
      if p in front then front else front + [p]
  }

  /** The results of one provider, in order. */
  function OfProvider(rs: seq<TestResult>, p: string): (r: seq<TestResult>)
    ensures |r| <= |rs|
  {
    if |rs| == 0 then []
    else
      var front := OfProvider(rs[..|rs| - 1], p);
      if rs[|rs| - 1].provider == p then front + [rs[|rs| - 1]] else front
  }

  /** The `byProvider` loop of `printReport`: providers in first-appearance order and,
      for each, its results in order. */
  method GroupByProvider(results: seq<TestResult>) returns (providers: seq<string>, groups: map<string, seq<TestResult>>)
    ensures providers == Providers(results)
    ensures forall p :: p in groups <==> p in providers
    ensures forall p :: p in groups ==> groups[p] == OfProvider(results, p)
  {
    providers := [];
    groups := map[];
    for i := 0 to |results|
      invariant providers == Providers(results[..i])
      invariant forall p :: p in groups <==> p in providers
      invariant forall p :: p in groups ==> groups[p] == OfProvider(results[..i], p)
    {
      assert results[..i + 1][..i] == results[..i];
      var r := results[i];
      ghost var g0 := groups;
      var arr := if r.provider in groups then groups[r.provider] else [];
      arr := arr + [r];
      if r.provider !in groups {
        providers := providers + [r.provider];
      }
      groups := groups[r.provider := arr];
      forall p | p in groups ensures groups[p] == OfProvider(results[..i + 1], p) {
        if p == r.provider && p !in g0 {
          OfProviderAbsent(results[..i], p);
        }
      }
    }
    assert results[..|results|] == results;
  }

  /** The sizes of the given providers' groups, summed. */
  function GroupSizes(ps: seq<string>, rs: seq<TestResult>): nat {
    if |ps| == 0 then 0 else GroupSizes(ps[..|ps| - 1], rs) + |OfProvider(rs, ps[|ps| - 1])|
  }

  /** The groups partition the results: their sizes add up to the total. */
  lemma {:induction false} GroupsCoverResults(rs: seq<TestResult>)
    ensures GroupSizes(Providers(rs), rs) == |rs|
  {
    if |rs| > 0 {
      var front := rs[..|rs| - 1];
      var r := rs[|rs| - 1];
      var ps := Providers(front);
      assert rs == front + [r];
      GroupsCoverResults(front);
      GroupSizesBump(ps, front, r);
      if r.provider !in ps {
        var ps' := ps + [r.provider];
        assert Providers(rs) == ps';
        assert ps'[..|ps'| - 1] == ps;
        OfProviderAbsent(front, r.provider);
        assert GroupSizes(ps', rs) == GroupSizes(ps, rs) + |OfProvider(rs, r.provider)|;
      }
    }
  }

  /** Appending one result grows its provider's group by one and leaves the others. */
  lemma {:induction false} GroupSizesBump(ps: seq<string>, front: seq<TestResult>, r: TestResult)
    requires forall i, j :: 0 <= i < j < |ps| ==> ps[i] != ps[j]
    ensures GroupSizes(ps, front + [r]) == GroupSizes(ps, front) + (if r.provider in ps then 1 else 0)
  {
    var rs := front + [r];
    assert rs[..|rs| - 1] == front;
    if |ps| > 0 {
      var init := ps[..|ps| - 1];
      GroupSizesBump(init, front, r);
      assert r.provider in ps <==> r.provider in init || r.provider == ps[|ps| - 1];
      if r.provider == ps[|ps| - 1] {
        assert r.provider !in init;
      }
    }
  }

  lemma {:induction false} OfProviderAbsent(rs: seq<TestResult>, p: string)
    requires forall k :: 0 <= k < |rs| ==> rs[k].provider != p
    ensures OfProvider(rs, p) == []
  {
    if |rs| > 0 {
      OfProviderAbsent(rs[..|rs| - 1], p);
    }
  }
}
