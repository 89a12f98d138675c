/** The execute route's event stream read back by the client: framed chunks parse back
    in order, and for any interleaving of the models' callbacks and any split of the
    bytes into pieces, each model's entry shows exactly its own adapter's text. */
module EndToEnd {
  import opened Util
  import opened Models
  import opened Adapter
  import opened LineBuffer
  import opened Responses
  import opened UseExecution
  import opened ExecuteRoute

  /** `JSON.parse` inverts `JSON.stringify` on chunks, and a serialised chunk holds no
      newline. */
  ghost predicate LawfulCodec(enc: StreamChunk -> string, dec: string -> Option<StreamChunk>) {
    forall c :: dec(enc(c)) == Some(c) && NoNewline(enc(c))
  }

  /** The lines one frame contributes: its data line and the empty line after it. */
  function FrameLines(enc: StreamChunk -> string, cs: seq<StreamChunk>): seq<string> {
    if |cs| == 0 then [] else FrameLines(enc, cs[..|cs| - 1]) + ["data: " + enc(cs[|cs| - 1]), ""]
  }

  lemma {:induction false} FrameLinesTerminated(enc: StreamChunk -> string, cs: seq<StreamChunk>)
    requires forall c :: NoNewline(enc(c))
    ensures Terminated(FrameLines(enc, cs)) == Frames(enc, cs)
    ensures AllNoNewline(FrameLines(enc, cs))
  {
    if |cs| > 0 {
      var front := cs[..|cs| - 1];
      var c := cs[|cs| - 1];
      FrameLinesTerminated(enc, front);
      TerminatedAppend(FrameLines(enc, front), ["data: " + enc(c), ""]);
      assert Terminated(["data: " + enc(c), ""]) == Frame(enc, c) by {
        assert ["data: " + enc(c), ""][1..] == [""];
        assert [""][1..] == [];
      }
      assert NoNewline("data: " + enc(c)) by {
        assert forall i :: 0 <= i < 6 ==> ("data: " + enc(c))[i] == "data: "[i];
        assert forall i :: 6 <= i < |"data: " + enc(c)| ==> ("data: " + enc(c))[i] == enc(c)[i - 6];
      }
      assert NoNewline("");
    }
  }

  /** The client's line splitting recovers exactly the frame lines, with nothing left
      over in the buffer. */
  lemma FramesSplit(enc: StreamChunk -> string, cs: seq<StreamChunk>)
    requires forall c :: NoNewline(enc(c))
    ensures Lines(Frames(enc, cs)) == FrameLines(enc, cs) && Rest(Frames(enc, cs)) == ""
  {
    FrameLinesTerminated(enc, cs);
    LinesUnique(Frames(enc, cs), FrameLines(enc, cs), "");
  }

  /** Parsing the framed stream applies exactly the sent chunks, in the order sent. */
  lemma {:induction false} FramesDecoded(t: Table, enc: StreamChunk -> string, dec: string -> Option<StreamChunk>, cs: seq<StreamChunk>)
    requires t.Valid() && LawfulCodec(enc, dec)
    ensures ApplyLines(t, Lines(Frames(enc, cs)), dec) == ApplyChunks(t, cs)
  {
    FramesSplit(enc, cs);
    FrameLinesApplied(t, enc, dec, cs);
  }

  lemma {:induction false} FrameLinesApplied(t: Table, enc: StreamChunk -> string, dec: string -> Option<StreamChunk>, cs: seq<StreamChunk>)
    requires t.Valid() && LawfulCodec(enc, dec)
    ensures ApplyLines(t, FrameLines(enc, cs), dec) == ApplyChunks(t, cs)
  {
    if |cs| > 0 {
      var front := cs[..|cs| - 1];
      var c := cs[|cs| - 1];
      var line := "data: " + enc(c);
      FrameLinesApplied(t, enc, dec, front);
      ApplyLinesAppend(t, FrameLines(enc, front), [line, ""], dec);
      var mid := ApplyLines(t, FrameLines(enc, front), dec);
      assert [line, ""][..1] == [line];
      assert [line][..0] == [];
      assert line[6..] == enc(c);
      assert StartsWith(line, "data: ");
      assert ParseLine(line, dec) == Some(c);
      assert ParseLine("", dec).None?;
      assert [line, ""][..1] == [line];
      assert ApplyLines(mid, [line], dec) == ApplyLine(mid, line, dec) == ApplyChunk(mid, c);
      assert ApplyLines(mid, [line, ""], dec) == ApplyLine(ApplyLines(mid, [line], dec), "", dec);
    }
  }

  /** Every sent chunk is tagged with the id of the model it came from. */
  lemma {:induction false} InterleaveTags(per: seq<seq<StreamChunk>>, ids: seq<string>, schedule: seq<nat>)
    requires |ids| == |per|
    requires forall i, j :: 0 <= i < |per| && 0 <= j < |per[i]| ==> per[i][j].modelId == ids[i]
    ensures var st := Interleave(per, schedule);
      |st.out| == |st.origin| && forall k :: 0 <= k < |st.out| ==> st.origin[k] < |ids| && st.out[k].modelId == ids[st.origin[k]]
  {
    InterleaveProjection(per, schedule);
    if |schedule| > 0 {
      InterleaveTags(per, ids, schedule[..|schedule| - 1]);
    }
  }

  /** With distinct ids, a model's chunks in the sent stream are exactly those it sent. */
  lemma {:induction false} ForModelProject(out: seq<StreamChunk>, origin: seq<nat>, ids: seq<string>, i: nat)
    requires |out| == |origin| && i < |ids|
    requires forall a, b :: 0 <= a < b < |ids| ==> ids[a] != ids[b]
    requires forall k :: 0 <= k < |out| ==> origin[k] < |ids| && out[k].modelId == ids[origin[k]]
    ensures ForModel(out, ids[i]) == Project(out, origin, i)
  {
    if |out| > 0 {
      ForModelProject(out[..|out| - 1], origin[..|origin| - 1], ids, i);
    }
  }

  /** The content of the chunks a model sends is its adapter's text, however far it got. */
  lemma {:induction false} ContentOfTagged(modelId: string, em: Emission, latencyMs: nat, n: nat)
    requires n <= |em.chunks| + 1
    ensures ContentOf(Tagged(modelId, em, latencyMs)[..n]) == Concat(em.chunks[..Min(n, |em.chunks|)])
  {
    var cs := Tagged(modelId, em, latencyMs);
    if n > 0 {
      ContentOfTagged(modelId, em, latencyMs, n - 1);
      assert cs[..n][..n - 1] == cs[..n - 1];
      var last := cs[n - 1];
      assert ContentOf(cs[..n]) == ContentOf(cs[..n - 1]) + (if last.kind == ContentChunk then last.content.GetOr("") else "");
      if n <= |em.chunks| {
        assert last == ContentChunkOf(modelId, em.chunks[n - 1]);
        assert em.chunks[..n] == em.chunks[..n - 1] + [em.chunks[n - 1]];
        ConcatAppend(em.chunks[..n - 1], [em.chunks[n - 1]]);
        assert Concat([em.chunks[n - 1]]) == em.chunks[n - 1];
      } else {
        assert last.kind != ContentChunk;
      }
    }
  }

  /** No two valid models share an id. */
  predicate DistinctIds(valid: seq<SelectedModel>) {
    forall a, b :: 0 <= a < b < |valid| ==> valid[a].modelId != valid[b].modelId
  }

  /** The emission the i-th valid model's callbacks receive. */
  function EmissionOf(valid: seq<SelectedModel>, i: nat, emitted: (nat, ProviderAdapter) -> Emission): Emission
    requires i < |valid| && FindModel(valid[i].modelId).Some?
  {
    Dispatch(FindModel(valid[i].modelId).value.provider, a => emitted(i, a))
  }

  /** The client reads the interleaved stream as the chunks applied in sent order. */
  lemma StreamedIsApplied(valid: seq<SelectedModel>, out: seq<StreamChunk>, pieces: seq<string>,
                          enc: StreamChunk -> string, dec: string -> Option<StreamChunk>)
    requires LawfulCodec(enc, dec) && Concat(pieces) == Frames(enc, out)
    ensures StreamedTable(valid, pieces, dec) == ApplyChunks(InitTable(valid), out)
  {
    FramesDecoded(InitTable(valid), enc, dec, out);
  }

  /** For distinctly tagged sequences, a model's entry after any interleaving holds the
      content of the chunks it has sent so far. */
  lemma InterleavedContent(valid: seq<SelectedModel>, per: seq<seq<StreamChunk>>, schedule: seq<nat>, i: nat)
    requires |per| == |valid| && DistinctIds(valid) && i < |valid|
    requires forall a, j :: 0 <= a < |per| && 0 <= j < |per[a]| ==> per[a][j].modelId == valid[a].modelId
    ensures var st := Interleave(per, schedule);
      st.pos[i] <= |per[i]|
      && Lookup(ApplyChunks(InitTable(valid), st.out), valid[i].modelId).content == ContentOf(per[i][..st.pos[i]])
  {
    var st := Interleave(per, schedule);
    var ids := seq(|valid|, k requires 0 <= k < |valid| => valid[k].modelId);
    var id := valid[i].modelId;
    InterleaveProjection(per, schedule);
    InterleaveTags(per, ids, schedule);
    ForModelProject(st.out, st.origin, ids, i);
    var init := InitTable(valid);
    ApplyChunksLocal(init, st.out, id);
    InitTableEntries(valid);
    assert Lookup(init, id) == Fresh(id);
    FoldEntryContent(Fresh(id), per[i][..st.pos[i]]);
  }

  /** The headline property: whatever order the concurrent adapters call back in and
      however the byte stream is cut into pieces, each model's entry holds the text its
      adapter emitted so far, in order. */
  lemma ClientSeesOwnContent(valid: seq<SelectedModel>, emitted: (nat, ProviderAdapter) -> Emission, latency: nat -> nat,
                             schedule: seq<nat>, pieces: seq<string>, enc: StreamChunk -> string,
                             dec: string -> Option<StreamChunk>, i: nat)
    requires LawfulCodec(enc, dec)
    requires forall k :: 0 <= k < |valid| ==> FindModel(valid[k].modelId).Some?
    requires DistinctIds(valid) && i < |valid|
    requires Concat(pieces) == Frames(enc, Interleave(Streams(valid, emitted, latency), schedule).out)
    ensures var st := Interleave(Streams(valid, emitted, latency), schedule);
      var text := EmissionOf(valid, i, emitted).chunks;
      Lookup(StreamedTable(valid, pieces, dec), valid[i].modelId).content == Concat(text[..Min(st.pos[i], |text|)])
  {
    var per := Streams(valid, emitted, latency);
    var st := Interleave(per, schedule);
    var em := EmissionOf(valid, i, emitted);
    StreamsWellFormed(valid, emitted, latency);
    StreamedIsApplied(valid, st.out, pieces, enc, dec);
    InterleavedContent(valid, per, schedule, i);
    assert per[i] == Tagged(valid[i].modelId, em, latency(i));
    ContentOfTagged(valid[i].modelId, em, latency(i), st.pos[i]);
  }

  /** Once a model has sent its terminal chunk, its entry holds all the text its adapter
      emitted. */
  lemma FinishedClientSeesAll(valid: seq<SelectedModel>, emitted: (nat, ProviderAdapter) -> Emission, latency: nat -> nat,
                              schedule: seq<nat>, pieces: seq<string>, enc: StreamChunk -> string,
                              dec: string -> Option<StreamChunk>, i: nat)
    requires LawfulCodec(enc, dec)
    requires forall k :: 0 <= k < |valid| ==> FindModel(valid[k].modelId).Some?
    requires DistinctIds(valid) && i < |valid|
    requires Concat(pieces) == Frames(enc, Interleave(Streams(valid, emitted, latency), schedule).out)
    requires Interleave(Streams(valid, emitted, latency), schedule).pos[i] == |Streams(valid, emitted, latency)[i]|
    ensures Lookup(StreamedTable(valid, pieces, dec), valid[i].modelId).content == Concat(EmissionOf(valid, i, emitted).chunks)
  {
    var text := EmissionOf(valid, i, emitted).chunks;
    ClientSeesOwnContent(valid, emitted, latency, schedule, pieces, enc, dec, i);
    assert Streams(valid, emitted, latency)[i] == Tagged(valid[i].modelId, EmissionOf(valid, i, emitted), latency(i));
    assert text[..|text|] == text;
  }
}
