/**
 * Server-Sent-Events framing of a simulated stream: one `data:` event per
 * chunk, in generation order, then the `[DONE]` marker.
 */
module SseWriter {
  import opened Wrappers
  import opened JsonValue
  import opened StreamSimulator

  const DoneFrame := "data: [DONE]\n\n"

  /** A chunk as the dict the generator yields. */
  function ChunkJson(c: Chunk): (j: Json)
    ensures j.JObject?
  {
    var finish := match c.finishReason case Some(reason) => JString(reason) case None => JNull;
    JObject(map[
      "id" := c.meta.id,
      "object" := c.meta.objectType,
      "created" := c.meta.created,
      "model" := c.meta.model,
      "choices" := JArray([JObject(map["index" := JInt(0), "delta" := JObject(c.delta), "finish_reason" := finish])])])
  }

  function Frame(payload: string): string {
    "data: " + payload + "\n\n"
  }

  /** The serialiser writes every dict as text that opens with a brace. */
  ghost predicate SerialisesObjectsAsBraces(ser: Json -> string) {
    forall j: Json :: j.JObject? ==> ser(j) != "" && ser(j)[0] == '{'
  }

  /** Every write the event-stream loop makes, in order. */
  function EventFrames(chunks: seq<Chunk>, ser: Json -> string): seq<string> {
    seq(|chunks|, k requires 0 <= k < |chunks| => Frame(ser(ChunkJson(chunks[k])))) + [DoneFrame]
  }

  /** The write loop: one framed event per chunk, then the marker. */
  method WriteEvents(chunks: seq<Chunk>, ser: Json -> string) returns (writes: seq<string>)
    ensures writes == EventFrames(chunks, ser)
  {
    writes := [];
    var i := 0;
    while i < |chunks|
      invariant 0 <= i <= |chunks|
      invariant writes == seq(i, k requires 0 <= k < i => Frame(ser(ChunkJson(chunks[k]))))
    {
      writes := writes + [Frame(ser(ChunkJson(chunks[i])))];
      i := i + 1;
    }
    writes := writes + [DoneFrame];
  }

  /**
   * Event k carries chunk k, and `[DONE]` is written exactly once, as the last
   * write: no chunk event can equal it, since a serialised chunk opens with a brace.
   */
  lemma DoneExactlyOnceAtEnd(chunks: seq<Chunk>, ser: Json -> string)
    requires SerialisesObjectsAsBraces(ser)
    ensures var w := EventFrames(chunks, ser);
      && |w| == |chunks| + 1
      && (forall k :: 0 <= k < |chunks| ==> w[k] == "data: " + ser(ChunkJson(chunks[k])) + "\n\n")
      && (forall k :: 0 <= k < |w| ==> (w[k] == DoneFrame <==> k == |w| - 1))
  {
    var w := EventFrames(chunks, ser);
    forall k | 0 <= k < |chunks|
      ensures w[k] != DoneFrame
    {
      var payload := ser(ChunkJson(chunks[k]));
      assert w[k] == Frame(payload);
      assert Frame(payload)[6] == payload[0] == '{';
      assert DoneFrame[6] == '[';
    }
  }
}
