/** What the three provider adapters under src/lib/clients have in common: the
    callbacks they drive, the chat message shape, the memoised client and the
    usage-metadata defaults of the Google SDK. */
module Adapter {
  import opened Util
  import opened Models

  /** How an adapter ends: `onDone(usage)` or `onError(error)` with the error's message. */
  datatype AdapterEnd = Done(usage: Usage) | Failed(message: string)

  /** Everything an adapter calls back with: the `onChunk` texts in order, then exactly
      one of `onDone` and `onError`. */
  datatype Emission = Emission(chunks: seq<string>, end: AdapterEnd)

  /** `error instanceof Error ? error : new Error(String(error))`, as the message the
      route forwards. */
  function CaughtMessage(e: Thrown): string {
    e.message
  }

  /** The emission of an adapter whose client is missing. */
  function NotConfigured(message: string): (em: Emission)
    ensures em.chunks == [] && em.end == Failed(message)
  {
    Emission([], Failed(message))
  }

  datatype Role = SystemRole | UserRole

  /** `{ role, content }` */
  datatype Message = Message(role: Role, content: string)

  /** The texts that are not empty, in order (`if (text) onChunk(text)`). */
  function NonEmpty(texts: seq<string>): (r: seq<string>)
    ensures |r| <= |texts|
    ensures forall i :: 0 <= i < |r| ==> r[i] != ""
  {
    if |texts| == 0 then []
    else
      var front := NonEmpty(texts[..|texts| - 1]);
      if texts[|texts| - 1] != "" then front + [texts[|texts| - 1]] else front
  }

  /** Dropping empty texts never changes the text they spell out, and keeps every
      non-empty one. */
  lemma {:induction false} NonEmptyText(texts: seq<string>)
    ensures Concat(NonEmpty(texts)) == Concat(texts)
    ensures forall t :: t in texts && t != "" ==> t in NonEmpty(texts)
  {
    if |texts| > 0 {
      var front := texts[..|texts| - 1];
      var last := texts[|texts| - 1];
      NonEmptyText(front);
      assert texts == front + [last];
      ConcatAppend(front, [last]);
      assert Concat([last]) == last;
      if last != "" {
        ConcatAppend(NonEmpty(front), [last]);
      }
    }
  }

  /** `NonEmpty` distributes over concatenation of text sequences. */
  lemma {:induction false} NonEmptyAppend(a: seq<string>, b: seq<string>)
    ensures NonEmpty(a + b) == NonEmpty(a) + NonEmpty(b)
  {
    if |b| > 0 {
      var front := b[..|b| - 1];
      assert (a + b)[..|a + b| - 1] == a + front;
      NonEmptyAppend(a, front);
    } else {
      assert a + b == a;
    }
  }

  /** `usageMetadata`, each count optional. */
  datatype UsageMetadata = UsageMetadata(promptTokenCount: Option<nat>, candidatesTokenCount: Option<nat>, totalTokenCount: Option<nat>)

  /** `usageMetadata?.x || 0` for each count. */
  function UsageOf(m: Option<UsageMetadata>): (u: Usage)
    ensures m.None? ==> u == Usage(0, 0, 0)
    ensures m.Some? ==>
      (u.promptTokens == m.value.promptTokenCount.GetOr(0)
       && u.completionTokens == m.value.candidatesTokenCount.GetOr(0)
       && u.totalTokens == m.value.totalTokenCount.GetOr(0))
  {
    match m
    case None => Usage(0, 0, 0)
    case Some(md) => Usage(md.promptTokenCount.GetOr(0), md.candidatesTokenCount.GetOr(0), md.totalTokenCount.GetOr(0))
  }

  /** The module-level client singleton with its `get...Client()` accessor. The client is
      represented by the key it was built with; `constructions` counts `new` calls. */
  class LazyClient {
    var instance: Option<string>
    var constructions: nat

    ghost predicate Valid()
      reads this
    {
      constructions <= 1
      && (instance.None? <==> constructions == 0)
      && (instance.Some? ==> instance.value != "")
    }

    constructor ()
      ensures Valid() && instance.None? && constructions == 0
    {
      instance := None;
      constructions := 0;
    }

    /** `get...Client()`: `null` without a key; otherwise the one client, built on the
        first call with a key. */
    method Get(key: Option<string>) returns (c: Option<string>)
      requires Valid()
      modifies this
      ensures Valid()
      ensures c.None? <==> key.None? || key.value == ""
      ensures key.None? || key.value == "" ==> instance == old(instance) && constructions == old(constructions)
      ensures key.Some? && key.value != "" ==>
        (c == instance && instance == (if old(instance).Some? then old(instance) else key))
      ensures constructions == old(constructions) || (old(constructions) == 0 && constructions == 1)
    {
      if key.None? || key.value == "" {
        return None;
      }
      if instance.None? {
        instance := key;
        constructions := constructions + 1;
      }
      c := instance;
    }
  }
}
