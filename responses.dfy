/** The client's per-model response table and the chunk reducer shared by
    src/hooks/use-execution.ts and src/components/arena.tsx, with the stream accumulator
    that owns the table and the line buffer during one execution. */
module Responses {
  import opened Util
  import opened Models
  import opened LineBuffer

  /** `ModelResponse` */
  datatype ModelResponse = ModelResponse(
    modelId: string,
    content: string,
    isStreaming: bool,
    isComplete: bool,
    isError: bool,
    error: Option<string>,
    usage: Option<Usage>,
    latencyMs: Option<nat>)

  /** The entry every selected model starts with. */
  function Fresh(id: string): ModelResponse {
    ModelResponse(id, "", true, false, false, None, None, None)
  }

  /** What the reducer spreads when the table has no entry for a chunk's model
      (`...existing!` of `undefined`): no flag set and no content. */
  function Blank(id: string): ModelResponse {
    ModelResponse(id, "", false, false, false, None, None, None)
  }

  /** A JavaScript `Map<string, ModelResponse>`: the keys in insertion order and the
      entries. */
  datatype Table = Table(keys: seq<string>, entries: map<string, ModelResponse>) {
    ghost predicate Valid() {
      && (forall i, j :: 0 <= i < j < |keys| ==> keys[i] != keys[j])
      && (forall k :: k in entries <==> k in keys)
    }
  }

  const EmptyTable := Table([], map[])

  /** `map.set(k, v)`: an existing key keeps its place, a new key goes last. */
  function Set(t: Table, k: string, v: ModelResponse): (r: Table)
    requires t.Valid()
    ensures r.Valid()
    ensures r.entries == t.entries[k := v]
    ensures r.keys == if k in t.entries then t.keys else t.keys + [k]
  {
    if k in t.entries then Table(t.keys, t.entries[k := v]) else Table(t.keys + [k], t.entries[k := v])
  }

  /** `map.get(k) || null` */
  function Get(t: Table, k: string): Option<ModelResponse> {
    if k in t.entries then Some(t.entries[k]) else None
  }

  /** The entry the reducer starts from for model `k`. */
  function Lookup(t: Table, k: string): ModelResponse {
    if k in t.entries then t.entries[k] else Blank(k)
  }

  /** The initial table: one `Fresh` entry per selected model, in selection order; a
      model id selected twice keeps its first place. */
  function InitTable(selected: seq<SelectedModel>): (t: Table)
    ensures t.Valid()
  {
    if |selected| == 0 then EmptyTable
    else
      var id := selected[|selected| - 1].modelId;
      Set(InitTable(selected[..|selected| - 1]), id, Fresh(id))
  }

  /** After initialisation exactly the selected model ids have entries, each fresh. */
  lemma {:induction false} InitTableEntries(selected: seq<SelectedModel>)
    ensures forall id :: id in InitTable(selected).entries <==> exists i :: 0 <= i < |selected| && selected[i].modelId == id
    ensures forall id :: id in InitTable(selected).entries ==> InitTable(selected).entries[id] == Fresh(id)
  {
    if |selected| > 0 {
      var front := selected[..|selected| - 1];
      InitTableEntries(front);
      forall id | (exists i :: 0 <= i < |selected| && selected[i].modelId == id)
        ensures id in InitTable(selected).entries
      {
        var i :| 0 <= i < |selected| && selected[i].modelId == id;
        if i < |selected| - 1 { assert front[i].modelId == id; }
      }
      forall id | id in InitTable(front).entries
        ensures exists i :: 0 <= i < |selected| && selected[i].modelId == id
      {
        var i :| 0 <= i < |front| && front[i].modelId == id;
        assert selected[i].modelId == id;
      }
    }
  }

  /** Whether the reducer changes the table for this chunk: a content chunk only
      when its content is non-empty (`chunk.type === "content" && chunk.content`). */
  predicate Changes(c: StreamChunk) {
    c.kind != ContentChunk || (c.content.Some? && c.content.value != "")
  }

  /** The new entry the reducer stores for chunk `c`, starting from entry `e`. */
  function UpdateEntry(e: ModelResponse, c: StreamChunk): (r: ModelResponse)
    ensures !Changes(c) ==> r == e
  {
    match c.kind
    case ContentChunk =>
      if c.content.Some? && c.content.value != "" then e.(content := e.content + c.content.value) else e
    case DoneChunk =>
      e.(isStreaming := false, isComplete := true, usage := c.usage, latencyMs := c.latencyMs)
    case ErrorChunk =>
      e.(isStreaming := false, isError := true, error := c.error, latencyMs := c.latencyMs)
  }

  /** The function passed to `setResponses` for one parsed chunk. */
  function ApplyChunk(t: Table, c: StreamChunk): (r: Table)
    requires t.Valid()
    ensures r.Valid()
  {
    if Changes(c) then Set(t, c.modelId, UpdateEntry(Lookup(t, c.modelId), c)) else t
  }

  /** A chunk touches only its own model's entry; every other entry stays as it was. */
  lemma ApplyChunkLocal(t: Table, c: StreamChunk, id: string)
    requires t.Valid()
    ensures Lookup(ApplyChunk(t, c), id) == if c.modelId == id then UpdateEntry(Lookup(t, id), c) else Lookup(t, id)
    ensures id in ApplyChunk(t, c).entries <==> id in t.entries || (c.modelId == id && Changes(c))
    ensures id != c.modelId && id in t.entries ==> ApplyChunk(t, c).entries[id] == t.entries[id]
  {
  }

  /** The table after applying chunks in order. */
  function ApplyChunks(t: Table, cs: seq<StreamChunk>): (r: Table)
    requires t.Valid()
    ensures r.Valid()
  {
    if |cs| == 0 then t else ApplyChunk(ApplyChunks(t, cs[..|cs| - 1]), cs[|cs| - 1])
  }

  /** The chunks of one model, in order. */
  function ForModel(cs: seq<StreamChunk>, id: string): (r: seq<StreamChunk>)
    ensures forall i :: 0 <= i < |r| ==> r[i].modelId == id
  {
    if |cs| == 0 then []
    else if cs[|cs| - 1].modelId == id then ForModel(cs[..|cs| - 1], id) + [cs[|cs| - 1]]
    else ForModel(cs[..|cs| - 1], id)
  }

  /** One model's entry folded over that model's own chunks. */
  function FoldEntry(e: ModelResponse, cs: seq<StreamChunk>): ModelResponse {
    if |cs| == 0 then e else UpdateEntry(FoldEntry(e, cs[..|cs| - 1]), cs[|cs| - 1])
  }

  /** For any order of chunks of different models, each model's final entry depends
      only on that model's own chunks, in their order. */
  lemma {:induction false} ApplyChunksLocal(t: Table, cs: seq<StreamChunk>, id: string)
    requires t.Valid()
    ensures Lookup(ApplyChunks(t, cs), id) == FoldEntry(Lookup(t, id), ForModel(cs, id))
  {
    if |cs| > 0 {
      var front := cs[..|cs| - 1];
      ApplyChunksLocal(t, front, id);
      ApplyChunkLocal(ApplyChunks(t, front), cs[|cs| - 1], id);
      if cs[|cs| - 1].modelId == id {
        var fm := ForModel(front, id) + [cs[|cs| - 1]];
        assert fm[..|fm| - 1] == ForModel(front, id);
      }
    }
  }

  /** Applying chunks never removes an entry, and adds one only for a model that
      received a chunk that changes the table. */
  lemma {:induction false} ApplyChunksKeys(t: Table, cs: seq<StreamChunk>, id: string)
    requires t.Valid()
    ensures id in t.entries ==> id in ApplyChunks(t, cs).entries
    ensures id in ApplyChunks(t, cs).entries ==> id in t.entries || exists i :: 0 <= i < |cs| && cs[i].modelId == id
  {
    if |cs| > 0 {
      var front := cs[..|cs| - 1];
      ApplyChunksKeys(t, front, id);
      ApplyChunkLocal(ApplyChunks(t, front), cs[|cs| - 1], id);
      if id in ApplyChunks(t, cs).entries && id !in t.entries && cs[|cs| - 1].modelId != id {
        var i :| 0 <= i < |front| && front[i].modelId == id;
        assert cs[i].modelId == id;
      }
    }
  }

  /** The text of the content chunks, in order (a missing content counts as empty). */
  function ContentOf(cs: seq<StreamChunk>): string {
    if |cs| == 0 then ""
    else ContentOf(cs[..|cs| - 1]) + (if cs[|cs| - 1].kind == ContentChunk then cs[|cs| - 1].content.GetOr("") else "")
  }

  /** An entry's content is its starting content followed by the text of every content
      chunk folded into it; done and error chunks keep the content. */
  lemma {:induction false} FoldEntryContent(e: ModelResponse, cs: seq<StreamChunk>)
    ensures FoldEntry(e, cs).content == e.content + ContentOf(cs)
    ensures FoldEntry(e, cs).modelId == e.modelId
  {
    if |cs| > 0 {
      FoldEntryContent(e, cs[..|cs| - 1]);
      var c := cs[|cs| - 1];
      if c.kind == ContentChunk && c.content.Some? && c.content.value == "" {
        assert c.content.GetOr("") == "";
      }
    }
  }

  /** A done chunk ends streaming successfully, records usage and latency and keeps the
      content; an error chunk ends it with the error and latency and keeps the content. */
  lemma TerminalChunkEffect(e: ModelResponse, c: StreamChunk)
    ensures c.kind == DoneChunk ==>
      UpdateEntry(e, c) == e.(isStreaming := false, isComplete := true, usage := c.usage, latencyMs := c.latencyMs)
    ensures c.kind == ErrorChunk ==>
      UpdateEntry(e, c) == e.(isStreaming := false, isError := true, error := c.error, latencyMs := c.latencyMs)
    ensures c.kind == ContentChunk ==>
      (UpdateEntry(e, c).isStreaming == e.isStreaming && UpdateEntry(e, c).isComplete == e.isComplete
       && UpdateEntry(e, c).isError == e.isError)
  {
  }

  /** `line.startsWith("data: ")` and then `JSON.parse(line.slice(6))`; `dec` stands for
      the parser and yields `None` where it throws. Other lines are skipped. */
  function ParseLine(line: string, dec: string -> Option<StreamChunk>): (r: Option<StreamChunk>)
    ensures !StartsWith(line, "data: ") ==> r.None?
    ensures StartsWith(line, "data: ") ==> r == dec(line[6..])
  {
    if StartsWith(line, "data: ") then dec(line[6..]) else None
  }

  /** One line of the stream applied to the table; a line that is not a data line or
      does not parse leaves the table unchanged. */
  function ApplyLine(t: Table, line: string, dec: string -> Option<StreamChunk>): (r: Table)
    requires t.Valid()
    ensures r.Valid()
    ensures ParseLine(line, dec).None? ==> r == t
  {
    match ParseLine(line, dec)
    case Some(c) => ApplyChunk(t, c)
    case None => t
  }

  function ApplyLines(t: Table, lines: seq<string>, dec: string -> Option<StreamChunk>): (r: Table)
    requires t.Valid()
    ensures r.Valid()
  {
    if |lines| == 0 then t else ApplyLine(ApplyLines(t, lines[..|lines| - 1], dec), lines[|lines| - 1], dec)
  }

  lemma {:induction false} ApplyLinesAppend(t: Table, a: seq<string>, b: seq<string>, dec: string -> Option<StreamChunk>)
    requires t.Valid()
    ensures ApplyLines(t, a + b, dec) == ApplyLines(ApplyLines(t, a, dec), b, dec)
  {
    if |b| > 0 {
      assert (a + b)[..|a + b| - 1] == a + b[..|b| - 1];
      ApplyLinesAppend(t, a, b[..|b| - 1], dec);
    } else {
      assert a + b == a;
    }
  }

  /** Feeding pieces one at a time applies exactly the complete lines of their
      concatenation, so how the bytes were cut does not matter. */
  lemma {:induction false} FeedPiecesIsSplit(t: Table, b: string, pieces: seq<string>, dec: string -> Option<StreamChunk>)
    requires t.Valid() && NoNewline(b)
    ensures FeedResult(t, b, pieces, dec) == (ApplyLines(t, Lines(b + Concat(pieces)), dec), Rest(b + Concat(pieces)))
    decreases |pieces|
  {
    FeedAllIsSplit(b, pieces);
    FeedResultLines(t, b, pieces, dec);
  }

  /** The table and buffer after feeding the pieces, one piece at a time. */
  function FeedResult(t: Table, b: string, pieces: seq<string>, dec: string -> Option<StreamChunk>): (Table, string)
    requires t.Valid()
    decreases |pieces|
  {
    if |pieces| == 0 then (t, b)
    else
      var s := b + pieces[0];
      FeedResult(ApplyLines(t, Lines(s), dec), Rest(s), pieces[1..], dec)
  }

  lemma {:induction false} FeedResultLines(t: Table, b: string, pieces: seq<string>, dec: string -> Option<StreamChunk>)
    requires t.Valid()
    ensures FeedResult(t, b, pieces, dec) == (ApplyLines(t, FeedAll(b, pieces).0, dec), FeedAll(b, pieces).1)
    decreases |pieces|
  {
    if |pieces| > 0 {
      var s := b + pieces[0];
      FeedResultLines(ApplyLines(t, Lines(s), dec), Rest(s), pieces[1..], dec);
      ApplyLinesAppend(t, Lines(s), FeedAll(Rest(s), pieces[1..]).0, dec);
    }
  }

  /** One entry after a failure: if still streaming it fails with the message and keeps
      everything else; otherwise it is untouched. */
  function FailEntry(e: ModelResponse, message: string): (r: ModelResponse)
    ensures !r.isStreaming
    ensures e.isStreaming ==>
      (r.isError && r.error == Some(message) && r.content == e.content
       && r.usage == e.usage && r.latencyMs == e.latencyMs && r.isComplete == e.isComplete)
    ensures !e.isStreaming ==> r == e
  {
    if e.isStreaming then e.(isStreaming := false, isError := true, error := Some(message)) else e
  }

  /** On a failure other than an abort, every entry still streaming becomes an error
      carrying the message; the others are kept. */
  function FailStreaming(t: Table, message: string): (r: Table)
    requires t.Valid()
    ensures r.Valid() && r.keys == t.keys && r.entries.Keys == t.entries.Keys
    ensures forall k :: k in t.entries ==> r.entries[k] == FailEntry(t.entries[k], message)
  {
    Table(t.keys, map k | k in t.entries :: FailEntry(t.entries[k], message))
  }

  /** The `for (const [modelId, response] of newResponses)` loop of the catch block. */
  method MarkStreamingFailed(t: Table, message: string) returns (r: Table)
    requires t.Valid()
    ensures r == FailStreaming(t, message)
  {
    r := t;
    for i := 0 to |t.keys|
      invariant r.Valid() && r.keys == t.keys && r.entries.Keys == t.entries.Keys
      invariant forall j :: 0 <= j < i ==> r.entries[t.keys[j]] == FailEntry(t.entries[t.keys[j]], message)
      invariant forall j :: i <= j < |t.keys| ==> r.entries[t.keys[j]] == t.entries[t.keys[j]]
    {
      var k := t.keys[i];
      assert forall j :: 0 <= j < |t.keys| && j != i ==> t.keys[j] != k;
      var response := r.entries[k];
      if response.isStreaming {
        r := Set(r, k, response.(isStreaming := false, isError := true, error := Some(message)));
      }
    }
    forall k | k in t.entries ensures r.entries[k] == FailEntry(t.entries[k], message) {
      var j :| 0 <= j < |t.keys| && t.keys[j] == k;
    }
    assert r.entries == FailStreaming(t, message).entries;
  }

  /** `Array.from(responses.values()).every((r) => r.isComplete || r.isError)` */
  predicate AllComplete(t: Table) {
    forall k :: k in t.entries ==> t.entries[k].isComplete || t.entries[k].isError
  }

  /** `responses.size > 0` */
  predicate HasResponses(t: Table) {
    t.entries != map[]
  }

  /** Owns the response table and the line buffer while one execution reads its stream. */
  class StreamAccumulator {
    var table: Table
    var buffer: string
    const dec: string -> Option<StreamChunk>

    ghost predicate Valid()
      reads this
    {
      table.Valid() && NoNewline(buffer)
    }

    constructor (initial: Table, dec: string -> Option<StreamChunk>)
      requires initial.Valid()
      ensures Valid() && table == initial && buffer == "" && this.dec == dec
    {
      table := initial;
      buffer := "";
      this.dec := dec;
    }

    /** One pass of the read loop: append the decoded piece, hand out the complete
        lines to the reducer, keep the incomplete last line. */
    method Feed(piece: string)
      requires Valid()
      modifies this
      ensures Valid()
      ensures table == ApplyLines(old(table), Lines(old(buffer) + piece), dec)
      ensures buffer == Rest(old(buffer) + piece)
    {
      var s := buffer + piece;
      LinesRestDecompose(s);
      var parts := Split(s);
      buffer := parts[|parts| - 1];
      var lines := parts[..|parts| - 1];
      var t0 := table;
      for i := 0 to |lines|
        invariant table.Valid() && buffer == Rest(s)
        invariant table == ApplyLines(t0, lines[..i], dec)
      {
        assert lines[..i + 1][..i] == lines[..i];
        table := ApplyLine(table, lines[i], dec);
      }
      assert lines[..|lines|] == lines;
    }
  }
}
