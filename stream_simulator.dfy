/**
 * The streaming simulator: one complete chat-completion value in, the ordered
 * list of "chat.completion.chunk" objects the generator yields out. The clock
 * reading is the parameter `now`; the JSON serialiser is the opaque `ser`.
 */
module StreamSimulator {
  import opened Wrappers
  import opened JsonValue
  import opened Text
  import opened Chunking

  const DefaultId := "chatcmpl-default-id"
  const ChunkObject := "chat.completion.chunk"
  const DefaultModel := "gpt-3.5-turbo-0613"
  const EscapeModel := "unknown-model"

  /** The fields every chunk of one response shares. */
  datatype Meta = Meta(id: Json, objectType: Json, created: Json, model: Json)

  /** One chunk: its metadata and its single choice (index 0) with a delta and a finish reason. */
  datatype Chunk = Chunk(meta: Meta, delta: map<string, Json>, finishReason: Option<string>)

  /** Why the generator raises before yielding anything. */
  datatype Fault =
    | ResponseNotObject    // `in`, `[]` or `.get` on a decoded value that is not a dict
    | ChoiceNotObject      // `choices[0].get` on a non-dict
    | MessageNotObject     // `message.get` on a non-dict (null included)
    | ContentHasNoLength   // `len(content)` on a truthy int or bool
    | ZeroChunkSize        // `range(0, n, 0)`
    | ContentNotSliceable  // `content[i:j]` on a dict

  /** Metadata of the ordinary branches: copied from the response, defaults when absent. */
  function BaseMeta(resp: map<string, Json>, now: int): Meta {
    Meta(Get(resp, "id", JString(DefaultId)),
         Get(resp, "object", JString(ChunkObject)),
         Get(resp, "created", JInt(now)),
         Get(resp, "model", JString(DefaultModel)))
  }

  /** Metadata of the escape-hatch branch: only the id comes from the response. */
  function EscapeMeta(resp: map<string, Json>, now: int): Meta {
    Meta(Get(resp, "id", JString(DefaultId)), JString(ChunkObject), JInt(now), JString(EscapeModel))
  }

  function ToolCallDelta(toolCalls: Json): map<string, Json> {
    map["role" := JString("assistant"), "content" := JNull, "tool_calls" := toolCalls]
  }

  /** The first piece also announces the assistant role; later pieces carry content only. */
  function PieceDelta(first: bool, piece: Json): map<string, Json> {
    if first then map["role" := JString("assistant"), "content" := piece] else map["content" := piece]
  }

  function StopChunk(meta: Meta): Chunk {
    Chunk(meta, map[], Some("stop"))
  }

  /** Applies `wrap` to every piece, in order. */
  function Wrap<T>(pieces: seq<seq<T>>, wrap: seq<T> -> Json): seq<Json> {
    seq(|pieces|, k requires 0 <= k < |pieces| => wrap(pieces[k]))
  }

  /** The chunks yielded for the content pieces, before the terminal one. */
  function PieceChunks(meta: Meta, pieces: seq<Json>): seq<Chunk> {
    seq(|pieces|, k requires 0 <= k < |pieces| => Chunk(meta, PieceDelta(k == 0, pieces[k]), None))
  }

  /** The content branch: pieces then "stop", or the fault `len`, `range` or slicing raises. */
  function ContentStream(meta: Meta, content: Json, size: int): Result<seq<Chunk>, Fault> {
    match content
    case JString(s) =>
      if size == 0 then Err(ZeroChunkSize)
      else if size < 0 then Ok([StopChunk(meta)])
      else Ok(PieceChunks(meta, Wrap(Pieces(s, size), AsString)) + [StopChunk(meta)])
    case JArray(items) =>
      if size == 0 then Err(ZeroChunkSize)
      else if size < 0 then Ok([StopChunk(meta)])
      else Ok(PieceChunks(meta, Wrap(Pieces(items, size), AsArray)) + [StopChunk(meta)])
    case JObject(_) =>
      if size == 0 then Err(ZeroChunkSize)
      else if size < 0 then Ok([StopChunk(meta)])
      else Err(ContentNotSliceable)
    case _ => Err(ContentHasNoLength)
  }

  /** `choices` is present, a list, and not empty. */
  predicate HasChoices(resp: map<string, Json>) {
    "choices" in resp && resp["choices"].JArray? && resp["choices"].items != []
  }

  /** The whole chunk list the generator yields for `resp`, or the fault it raises first. */
  function Simulate(resp: Json, size: int, now: int, ser: Json -> string): Result<seq<Chunk>, Fault> {
    if !resp.JObject? then Err(ResponseNotObject)
    else if HasChoices(resp.fields) then
      var choice := resp.fields["choices"].items[0];
      if !choice.JObject? then Err(ChoiceNotObject)
      else
        var message := Get(choice.fields, "message", JObject(map[]));
        if !message.JObject? then Err(MessageNotObject)
        else
          var content := Get(message.fields, "content", JString(""));
          var toolCalls := Get(message.fields, "tool_calls", JNull);
          var meta := BaseMeta(resp.fields, now);
          if Truthy(toolCalls) then Ok([Chunk(meta, ToolCallDelta(toolCalls), Some("tool_calls"))])
          else if Truthy(content) then ContentStream(meta, content, size)
          else Ok([StopChunk(meta)])
    else
      var meta := EscapeMeta(resp.fields, now);
      Ok([Chunk(meta, map["content" := JString(ser(resp))], None), StopChunk(meta)])
  }

  /** The content loop: one chunk per slice `s[i:i+size]`, the first with the role. */
  method YieldPieces<T>(meta: Meta, s: seq<T>, size: nat, wrap: seq<T> -> Json) returns (chunks: seq<Chunk>)
    requires size > 0
    ensures chunks == PieceChunks(meta, Wrap(Pieces(s, size), wrap))
  {
    chunks := [];
    var i: nat := 0;
    ghost var done: seq<seq<T>> := [];
    while i < |s|
      invariant Pieces(s, size) == done + PiecesFrom(s, size, i)
      invariant (i == 0) == (done == [])
      invariant chunks == PieceChunks(meta, Wrap(done, wrap))
      decreases |s| - i
    {
      var piece := s[i..Min(i + size, |s|)];
      assert PiecesFrom(s, size, i) == [piece] + PiecesFrom(s, size, i + size);
      chunks := chunks + [Chunk(meta, PieceDelta(i == 0, wrap(piece)), None)];
      done := done + [piece];
      i := i + size;
    }
    assert done == Pieces(s, size);
  }

  /** The generator run to exhaustion. */
  method SimulateStreaming(resp: Json, size: int, now: int, ser: Json -> string)
    returns (r: Result<seq<Chunk>, Fault>)
    ensures r == Simulate(resp, size, now, ser)
  {
    if !resp.JObject? {
      return Err(ResponseNotObject);
    }
    if !HasChoices(resp.fields) {
      var meta := EscapeMeta(resp.fields, now);
      return Ok([Chunk(meta, map["content" := JString(ser(resp))], None), StopChunk(meta)]);
    }
    var choice := resp.fields["choices"].items[0];
    if !choice.JObject? {
      return Err(ChoiceNotObject);
    }
    var message := Get(choice.fields, "message", JObject(map[]));
    if !message.JObject? {
      return Err(MessageNotObject);
    }
    var content := Get(message.fields, "content", JString(""));
    var toolCalls := Get(message.fields, "tool_calls", JNull);
    var meta := BaseMeta(resp.fields, now);
    if Truthy(toolCalls) {
      return Ok([Chunk(meta, ToolCallDelta(toolCalls), Some("tool_calls"))]);
    }
    if !Truthy(content) {
      return Ok([StopChunk(meta)]);
    }
    match content
    case JString(s) =>
      if size == 0 {
        r := Err(ZeroChunkSize);
      } else if size < 0 {
        r := Ok([StopChunk(meta)]);
      } else {
        var chunks := YieldPieces(meta, s, size, AsString);
        r := Ok(chunks + [StopChunk(meta)]);
      }
    case JArray(items) =>
      if size == 0 {
        r := Err(ZeroChunkSize);
      } else if size < 0 {
        r := Ok([StopChunk(meta)]);
      } else {
        var chunks := YieldPieces(meta, items, size, AsArray);
        r := Ok(chunks + [StopChunk(meta)]);
      }
    case JObject(_) =>
      if size == 0 {
        r := Err(ZeroChunkSize);
      } else if size < 0 {
        r := Ok([StopChunk(meta)]);
      } else {
        r := Err(ContentNotSliceable);
      }
    case _ =>
      r := Err(ContentHasNoLength);
  }
}
