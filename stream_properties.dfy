/** What the simulator's output promises, branch by branch. */
module StreamProperties {
  import opened Wrappers
  import opened JsonValue
  import opened Text
  import opened Chunking
  import opened StreamSimulator

  /** The text a client gets by joining every chunk's `delta.content` string, in order. */
  function DeltaText(c: Chunk): string {
    if "content" in c.delta && c.delta["content"].JString? then c.delta["content"].s else ""
  }

  function StreamedText(chunks: seq<Chunk>): string {
    if chunks == [] then "" else DeltaText(chunks[0]) + StreamedText(chunks[1..])
  }

  /** `resp.choices[0].message` is the dict `message`, read the way the simulator reads it. */
  predicate MessageIs(resp: Json, message: map<string, Json>) {
    && resp.JObject?
    && HasChoices(resp.fields)
    && resp.fields["choices"].items[0].JObject?
    && Get(resp.fields["choices"].items[0].fields, "message", JObject(map[])) == JObject(message)
  }

  lemma {:induction false} StreamedTextFlatten(chunks: seq<Chunk>, texts: seq<string>)
    requires |chunks| == |texts|
    requires forall k :: 0 <= k < |chunks| ==> DeltaText(chunks[k]) == texts[k]
    ensures StreamedText(chunks) == Flatten(texts)
  {
    if chunks != [] {
      StreamedTextFlatten(chunks[1..], texts[1..]);
    }
  }

  /** Shape of the content branch for any sliceable content `s`, before `wrap` picks string or list. */
  lemma PieceStreamShape<T>(meta: Meta, s: seq<T>, size: nat, wrap: seq<T> -> Json)
    requires size > 0 && s != []
    ensures var r := PieceChunks(meta, Wrap(Pieces(s, size), wrap)) + [StopChunk(meta)];
      && |s| <= (|r| - 1) * size < |s| + size
      && (forall k :: 0 <= k < |r| - 1 ==>
            k * size < |s| && r[k] == Chunk(meta, PieceDelta(k == 0, wrap(s[k * size .. Min(k * size + size, |s|)])), None))
      && r[|r| - 1] == StopChunk(meta)
  {
    var pieces := Pieces(s, size);
    var pcs := PieceChunks(meta, Wrap(pieces, wrap));
    var r := pcs + [StopChunk(meta)];
    PiecesFromCount(s, size, 0);
    assert |r| - 1 == |pieces|;
    forall k | 0 <= k < |r| - 1
      ensures k * size < |s| && r[k] == Chunk(meta, PieceDelta(k == 0, wrap(s[k * size .. Min(k * size + size, |s|)])), None)
    {
      PiecesFromAt(s, size, 0, k);
      assert r[k] == pcs[k];
    }
  }

  /** The chunks the content branch yields for text `s`. */
  function TextChunks(meta: Meta, s: string, size: nat): seq<Chunk>
    requires size > 0
  {
    PieceChunks(meta, Wrap(Pieces(s, size), AsString)) + [StopChunk(meta)]
  }

  lemma TextChunksShape(meta: Meta, s: string, size: nat)
    requires size > 0 && s != []
    ensures var r := TextChunks(meta, s, size);
      && |s| <= (|r| - 1) * size < |s| + size
      && r[0].delta == map["role" := JString("assistant"), "content" := JString(s[..Min(size, |s|)])]
      && (forall k :: 0 < k < |r| - 1 ==>
            k * size < |s| && r[k].delta == map["content" := JString(s[k * size .. Min(k * size + size, |s|)])])
      && (forall k :: 0 <= k < |r| - 1 ==>
            r[k].finishReason == None && r[k].meta == meta && 0 < |DeltaText(r[k])| <= size)
      && r[|r| - 1] == StopChunk(meta)
      && StreamedText(r) == s
  {
    var r := TextChunks(meta, s, size);
    PieceStreamShape(meta, s, size, AsString);
    assert 0 * size == 0;
    forall k | 0 <= k < |r| - 1
      ensures 0 < |DeltaText(r[k])| <= size
    {
      assert DeltaText(r[k]) == s[k * size .. Min(k * size + size, |s|)];
    }
    TextPiecesJoin(meta, s, size);
  }

  /**
   * Text content, no tool calls: ceil(L/size) chunks of at most `size` characters,
   * the first with role "assistant", all with finish_reason null and the response's
   * metadata, then one "stop" chunk with an empty delta; joined, they give the content.
   */
  lemma TextContentStream(resp: Json, message: map<string, Json>, s: string, size: int, now: int, ser: Json -> string)
    requires MessageIs(resp, message)
    requires !Truthy(Get(message, "tool_calls", JNull))
    requires Get(message, "content", JString("")) == JString(s) && s != ""
    requires size > 0
    ensures Simulate(resp, size, now, ser).Ok?
    ensures var r := Simulate(resp, size, now, ser).value;
      var meta := BaseMeta(resp.fields, now);
      && |s| <= (|r| - 1) * size < |s| + size
      && r[0].delta == map["role" := JString("assistant"), "content" := JString(s[..Min(size, |s|)])]
      && (forall k :: 0 < k < |r| - 1 ==>
            k * size < |s| && r[k].delta == map["content" := JString(s[k * size .. Min(k * size + size, |s|)])])
      && (forall k :: 0 <= k < |r| - 1 ==>
            r[k].finishReason == None && r[k].meta == meta && 0 < |DeltaText(r[k])| <= size)
      && r[|r| - 1] == StopChunk(meta)
      && StreamedText(r) == s
  {
    TextBranchTaken(resp, message, s, size, now, ser);
    TextChunksShape(BaseMeta(resp.fields, now), s, size);
  }

  lemma TextBranchTaken(resp: Json, message: map<string, Json>, s: string, size: int, now: int, ser: Json -> string)
    requires MessageIs(resp, message)
    requires !Truthy(Get(message, "tool_calls", JNull))
    requires Get(message, "content", JString("")) == JString(s) && s != ""
    requires size > 0
    ensures Simulate(resp, size, now, ser) == Ok(TextChunks(BaseMeta(resp.fields, now), s, size))
  {
  }

  lemma TextPiecesJoin(meta: Meta, s: string, size: nat)
    requires size > 0
    ensures StreamedText(PieceChunks(meta, Wrap(Pieces(s, size), AsString)) + [StopChunk(meta)]) == s
  {
    var pieces := Pieces(s, size);
    var r := PieceChunks(meta, Wrap(pieces, AsString)) + [StopChunk(meta)];
    PiecesSpec(s, size);
    forall k | 0 <= k < |r| - 1
      ensures DeltaText(r[k]) == pieces[k]
    {
      assert Wrap(pieces, AsString)[k] == AsString(pieces[k]);
    }
    assert DeltaText(r[|r| - 1]) == "";
    StreamedTextFlatten(r, pieces + [""]);
    FlattenAppend(pieces, [""]);
    assert Flatten([""]) == "";
  }

  /** List content is cut the same way: chunk k carries `items[k*size : k*size+size]`. */
  lemma ListContentStream(resp: Json, message: map<string, Json>, items: seq<Json>, size: int, now: int, ser: Json -> string)
    requires MessageIs(resp, message)
    requires !Truthy(Get(message, "tool_calls", JNull))
    requires Get(message, "content", JString("")) == JArray(items) && items != []
    requires size > 0
    ensures Simulate(resp, size, now, ser).Ok?
    ensures var r := Simulate(resp, size, now, ser).value;
      var meta := BaseMeta(resp.fields, now);
      && |items| <= (|r| - 1) * size < |items| + size
      && (forall k :: 0 <= k < |r| - 1 ==>
            k * size < |items| &&
            r[k] == Chunk(meta, PieceDelta(k == 0, JArray(items[k * size .. Min(k * size + size, |items|)])), None))
      && r[|r| - 1] == StopChunk(meta)
  {
    var meta := BaseMeta(resp.fields, now);
    assert Simulate(resp, size, now, ser) == Ok(PieceChunks(meta, Wrap(Pieces(items, size), AsArray)) + [StopChunk(meta)]);
    PieceStreamShape(meta, items, size, AsArray);
  }

  /**
   * Truthy tool_calls win over any content: exactly one chunk, carrying the tool
   * calls unchanged, finish_reason "tool_calls", and no "stop" chunk.
   */
  lemma ToolCallsWin(resp: Json, message: map<string, Json>, size: int, now: int, ser: Json -> string)
    requires MessageIs(resp, message)
    requires "tool_calls" in message && Truthy(message["tool_calls"])
    ensures Simulate(resp, size, now, ser) == Ok([Chunk(
      BaseMeta(resp.fields, now),
      map["role" := JString("assistant"), "content" := JNull, "tool_calls" := message["tool_calls"]],
      Some("tool_calls"))])
  {
  }

  /** Choices present but neither tool calls nor content: one "stop" chunk with an empty delta. */
  lemma EmptyContentStops(resp: Json, message: map<string, Json>, size: int, now: int, ser: Json -> string)
    requires MessageIs(resp, message)
    requires !Truthy(Get(message, "tool_calls", JNull))
    requires !Truthy(Get(message, "content", JString("")))
    ensures Simulate(resp, size, now, ser) == Ok([Chunk(BaseMeta(resp.fields, now), map[], Some("stop"))])
  {
  }

  /**
   * `choices` missing, not a list or empty: the whole serialised response in one
   * chunk (object forced to the chunk type, model "unknown-model", created now),
   * then a "stop" chunk.
   */
  lemma EscapeHatch(resp: Json, size: int, now: int, ser: Json -> string)
    requires resp.JObject? && !HasChoices(resp.fields)
    ensures Simulate(resp, size, now, ser).Ok?
    ensures var r := Simulate(resp, size, now, ser).value;
      && |r| == 2
      && r[0].delta == map["content" := JString(ser(resp))] && r[0].finishReason == None
      && r[1].delta == map[] && r[1].finishReason == Some("stop")
      && r[0].meta == r[1].meta
      && r[0].meta.id == Get(resp.fields, "id", JString(DefaultId))
      && r[0].meta.objectType == JString(ChunkObject)
      && r[0].meta.created == JInt(now)
      && r[0].meta.model == JString(EscapeModel)
      && StreamedText(r) == ser(resp)
  {
    var r := Simulate(resp, size, now, ser).value;
    assert r[1..] == [r[1]] && r[1..][1..] == [];
    assert StreamedText(r[1..]) == DeltaText(r[1]) + StreamedText([]);
  }

  /**
   * In every branch but the escape hatch, `object` is copied from the response
   * (the chunk type is only the default), as are id, created and model.
   */
  lemma MetadataCopied(resp: Json, message: map<string, Json>, size: int, now: int, ser: Json -> string)
    requires MessageIs(resp, message)
    requires Simulate(resp, size, now, ser).Ok?
    ensures forall c :: c in Simulate(resp, size, now, ser).value ==>
      && c.meta.id == Get(resp.fields, "id", JString(DefaultId))
      && c.meta.objectType == Get(resp.fields, "object", JString(ChunkObject))
      && c.meta.created == Get(resp.fields, "created", JInt(now))
      && c.meta.model == Get(resp.fields, "model", JString(DefaultModel))
  {
    var meta := BaseMeta(resp.fields, now);
    var content := Get(message, "content", JString(""));
    if !Truthy(Get(message, "tool_calls", JNull)) && Truthy(content) && size > 0 {
      match content
      case JString(s) => PieceStreamShape(meta, s, size, AsString);
      case JArray(items) => PieceStreamShape(meta, items, size, AsArray);
      case _ =>
    }
  }

  /**
   * Whatever the branch, a finished stream is non-empty, only its last chunk has a
   * finish_reason ("stop" or "tool_calls"), a "tool_calls" finish is the only chunk,
   * and all chunks share one metadata record.
   */
  lemma {:induction false} FinishReasonOnlyOnLast(resp: Json, size: int, now: int, ser: Json -> string)
    requires Simulate(resp, size, now, ser).Ok?
    ensures var r := Simulate(resp, size, now, ser).value;
      && |r| >= 1
      && (forall k :: 0 <= k < |r| - 1 ==> r[k].finishReason == None)
      && r[|r| - 1].finishReason in {Some("stop"), Some("tool_calls")}
      && (r[|r| - 1].finishReason == Some("tool_calls") ==> |r| == 1)
      && (forall k :: 0 <= k < |r| ==> r[k].meta == r[0].meta)
  {
    if resp.JObject? && HasChoices(resp.fields) {
      var message := Get(resp.fields["choices"].items[0].fields, "message", JObject(map[]));
      var content := Get(message.fields, "content", JString(""));
      var meta := BaseMeta(resp.fields, now);
      if !Truthy(Get(message.fields, "tool_calls", JNull)) && Truthy(content) && size > 0 {
        match content
        case JString(s) => PieceStreamShape(meta, s, size, AsString);
        case JArray(items) => PieceStreamShape(meta, items, size, AsArray);
        case _ =>
      }
    }
  }

  /** The generator raises (before yielding anything) exactly in these cases. */
  lemma SimulateFailsExactly(resp: Json, size: int, now: int, ser: Json -> string)
    ensures Simulate(resp, size, now, ser).Err? <==>
      || !resp.JObject?
      || (&& HasChoices(resp.fields)
          && var choice := resp.fields["choices"].items[0];
             || !choice.JObject?
             || (var message := Get(choice.fields, "message", JObject(map[]));
                 || !message.JObject?
                 || (var content := Get(message.fields, "content", JString(""));
                     && !Truthy(Get(message.fields, "tool_calls", JNull))
                     && Truthy(content)
                     && (|| content.JInt? || content.JBool?
                         || size == 0
                         || (size > 0 && content.JObject?)))))
  {
  }

  /** Example: "Hello, world!" with size 5 streams "Hello", ", wor", "ld!", then "stop". */
  lemma HelloWorldStream(now: int, ser: Json -> string)
    ensures var message := map["role" := JString("assistant"), "content" := JString("Hello, world!")];
      var resp := JObject(map["choices" := JArray([JObject(map["message" := JObject(message)])])]);
      var meta := BaseMeta(resp.fields, now);
      Simulate(resp, 5, now, ser) == Ok([
        Chunk(meta, map["role" := JString("assistant"), "content" := JString("Hello")], None),
        Chunk(meta, map["content" := JString(", wor")], None),
        Chunk(meta, map["content" := JString("ld!")], None),
        Chunk(meta, map[], Some("stop"))])
  {
    HelloWorldPieces();
    var message := map["role" := JString("assistant"), "content" := JString("Hello, world!")];
    var resp := JObject(map["choices" := JArray([JObject(map["message" := JObject(message)])])]);
    var meta := BaseMeta(resp.fields, now);
    var wrapped := Wrap(Pieces("Hello, world!", 5), AsString);
    assert wrapped == [JString("Hello"), JString(", wor"), JString("ld!")] by {
      assert |wrapped| == 3;
      assert wrapped[0] == AsString("Hello") && wrapped[1] == AsString(", wor") && wrapped[2] == AsString("ld!");
    }
    var pcs := PieceChunks(meta, wrapped);
    assert pcs == [
        Chunk(meta, map["role" := JString("assistant"), "content" := JString("Hello")], None),
        Chunk(meta, map["content" := JString(", wor")], None),
        Chunk(meta, map["content" := JString("ld!")], None)] by {
      assert |pcs| == 3;
      assert pcs[0] == Chunk(meta, map["role" := JString("assistant"), "content" := JString("Hello")], None);
      assert pcs[1] == Chunk(meta, map["content" := JString(", wor")], None);
      assert pcs[2] == Chunk(meta, map["content" := JString("ld!")], None);
    }
    TextBranchTaken(resp, message, "Hello, world!", 5, now, ser);
    assert Simulate(resp, 5, now, ser) == Ok(pcs + [StopChunk(meta)]);
    assert pcs + [StopChunk(meta)] == [pcs[0], pcs[1], pcs[2], Chunk(meta, map[], Some("stop"))];
  }
}
