/** What the handler promises its clients, and where the code as written falls short. */
module HandlerProperties {
  import opened Wrappers
  import opened JsonValue
  import opened Text
  import opened StreamSimulator
  import opened SseWriter
  import opened Forwarder
  import opened ProxyHandler

  /** A body that is not JSON is answered 400 before anything is forwarded, whatever the backend. */
  lemma InvalidJsonRejected(cfg: Config, path: string, inbound: Headers,
                            backend: Outbound -> Result<Reply, TransportError>,
                            parse: seq<byte> -> Option<Json>, ser: Json -> string, now: int)
    ensures PostRequest(cfg, path, inbound, NotJson) == Err(ErrorPage(400))
    ensures HandlePost(cfg, path, inbound, NotJson, backend, parse, ser, now) == ErrorPage(400)
    ensures HandlePostAsWritten(cfg, path, inbound, NotJson, backend, parse, ser, now) == ErrorPage(400)
  {
  }

  /**
   * A POST that is forwarded goes to target + path with the whitelisted headers
   * and the client's dict with `stream` set to false, whatever the client asked for.
   */
  lemma ForwardedPostNeverStreams(cfg: Config, path: string, inbound: Headers, body: BodyDecode)
    requires PostRequest(cfg, path, inbound, body).Ok?
    ensures var request := PostRequest(cfg, path, inbound, body).value;
      && body.Decoded? && body.value.JObject?
      && request.verb == "POST"
      && request.url == TargetUrl(cfg) + path
      && request.headers == OutboundHeaders(inbound)
      && request.verify == ResolveVerify(cfg)
      && request.json.Some? && request.json.value.JObject?
      && request.json.value.fields["stream"] == JBool(false)
      && forall k :: k in body.value.fields && k != "stream" ==> k in request.json.value.fields && request.json.value.fields[k] == body.value.fields[k]
  {
  }

  /**
   * The client gets an event stream (or its fallbacks) exactly when the reply is
   * 200 and declares JSON, in the handler as written and as intended alike.
   */
  lemma EventStreamOnlyForJson200(cfg: Config, path: string, inbound: Headers, body: BodyDecode,
                                  backend: Outbound -> Result<Reply, TransportError>,
                                  parse: seq<byte> -> Option<Json>, ser: Json -> string, now: int)
    ensures var r := HandlePost(cfg, path, inbound, body, backend, parse, ser, now);
      (r.EventStream? || r.EventStreamAborted? || r.RawAfterEventHeaders?) <==>
        && PostRequest(cfg, path, inbound, body).Ok?
        && backend(PostRequest(cfg, path, inbound, body).value).Ok?
        && Transforms(backend(PostRequest(cfg, path, inbound, body).value).value)
    ensures var r := HandlePostAsWritten(cfg, path, inbound, body, backend, parse, ser, now);
      (r.EventStream? || r.EventStreamAborted? || r.RawAfterEventHeaders?) <==>
        && PostRequest(cfg, path, inbound, body).Ok?
        && backend(PostRequest(cfg, path, inbound, body).value).Ok?
        && Transforms(backend(PostRequest(cfg, path, inbound, body).value).value)
  {
  }

  /**
   * A 200 JSON reply that decodes and simulates becomes one `data:` event per
   * chunk, in order, followed by a single `[DONE]` event at the very end.
   */
  lemma EventStreamFrames(cfg: Config, path: string, inbound: Headers, body: BodyDecode,
                          backend: Outbound -> Result<Reply, TransportError>,
                          parse: seq<byte> -> Option<Json>, ser: Json -> string, now: int,
                          reply: Reply, data: Json, chunks: seq<Chunk>)
    requires SerialisesObjectsAsBraces(ser)
    requires PostRequest(cfg, path, inbound, body).Ok?
    requires backend(PostRequest(cfg, path, inbound, body).value) == Ok(reply)
    requires Transforms(reply)
    requires parse(reply.body) == Some(data)
    requires Simulate(data, ChunkSize(cfg), now, ser) == Ok(chunks)
    ensures HandlePost(cfg, path, inbound, body, backend, parse, ser, now).EventStream?
    ensures HandlePostAsWritten(cfg, path, inbound, body, backend, parse, ser, now)
      == HandlePost(cfg, path, inbound, body, backend, parse, ser, now)
    ensures var w := HandlePost(cfg, path, inbound, body, backend, parse, ser, now).events;
      && |w| == |chunks| + 1
      && (forall k :: 0 <= k < |chunks| ==> w[k] == "data: " + ser(ChunkJson(chunks[k])) + "\n\n")
      && (forall k :: 0 <= k < |w| ==> (w[k] == "data: [DONE]\n\n" <==> k == |w| - 1))
  {
    DoneExactlyOnceAtEnd(chunks, ser);
  }

  /** Any other reply is passed through: its status, its allow-listed headers, its body unchanged. */
  lemma OtherRepliesPassThrough(cfg: Config, path: string, inbound: Headers, body: BodyDecode,
                                backend: Outbound -> Result<Reply, TransportError>,
                                parse: seq<byte> -> Option<Json>, ser: Json -> string, now: int, reply: Reply)
    requires PostRequest(cfg, path, inbound, body).Ok?
    requires backend(PostRequest(cfg, path, inbound, body).value) == Ok(reply)
    requires !Transforms(reply)
    ensures HandlePost(cfg, path, inbound, body, backend, parse, ser, now)
      == Proxied(reply.status, PassthroughHeaders(reply.headers), reply.body)
  {
  }

  /** A transport failure is answered once with its mapped status (an SSL failure with 502). */
  lemma TransportFailureAnswered(cfg: Config, path: string, inbound: Headers, body: BodyDecode,
                                 backend: Outbound -> Result<Reply, TransportError>,
                                 parse: seq<byte> -> Option<Json>, ser: Json -> string, now: int, e: TransportError)
    requires PostRequest(cfg, path, inbound, body).Ok?
    requires backend(PostRequest(cfg, path, inbound, body).value) == Err(e)
    ensures HandlePost(cfg, path, inbound, body, backend, parse, ser, now) == ErrorPage(ErrorStatus(e))
    ensures HandlePostAsWritten(cfg, path, inbound, body, backend, parse, ser, now) == ErrorPage(ErrorStatus(e))
    ensures e == SSLError ==> HandlePost(cfg, path, inbound, body, backend, parse, ser, now) == ErrorPage(502)
  {
  }

  /** GET serves only the model listing, never transformed; every other path is 404. */
  lemma GetRouting(cfg: Config, path: string, inbound: Headers, backend: Outbound -> Result<Reply, TransportError>)
    ensures path != ModelsPath ==> HandleGet(cfg, path, inbound, backend) == ErrorPage(404)
    ensures path != ModelsPath ==> HandleGetAsWritten(cfg, path, inbound, backend) == ErrorPage(404)
    ensures path == ModelsPath ==>
      match backend(GetRequest(cfg, inbound))
      case Ok(reply) => HandleGet(cfg, path, inbound, backend) == Proxied(reply.status, PassthroughHeaders(reply.headers), reply.body)
      case Err(e) => HandleGet(cfg, path, inbound, backend) == ErrorPage(ErrorStatus(e))
  {
  }

  /**
   * Outside the 400..599 statuses the handler as written and the intended one
   * agree, so every promise above about `HandlePost` holds of the code as written.
   */
  lemma AsWrittenAgreesOutsideErrorStatuses(cfg: Config, path: string, inbound: Headers, body: BodyDecode,
                                            backend: Outbound -> Result<Reply, TransportError>,
                                            parse: seq<byte> -> Option<Json>, ser: Json -> string, now: int)
    requires PostRequest(cfg, path, inbound, body).Ok? && backend(PostRequest(cfg, path, inbound, body).value).Ok?
      ==> ReplyTruthy(backend(PostRequest(cfg, path, inbound, body).value).value)
    ensures HandlePostAsWritten(cfg, path, inbound, body, backend, parse, ser, now)
      == HandlePost(cfg, path, inbound, body, backend, parse, ser, now)
  {
  }

  /** The same agreement for GET. */
  lemma GetAsWrittenAgreesOutsideErrorStatuses(cfg: Config, path: string, inbound: Headers,
                                               backend: Outbound -> Result<Reply, TransportError>)
    requires path == ModelsPath && backend(GetRequest(cfg, inbound)).Ok? ==> ReplyTruthy(backend(GetRequest(cfg, inbound)).value)
    ensures HandleGetAsWritten(cfg, path, inbound, backend) == HandleGet(cfg, path, inbound, backend)
  {
  }

  /** As written, a backend error reply (4xx/5xx) to a valid POST gets no answer at all. */
  lemma AsWrittenDropsErrorReplies(cfg: Config, path: string, inbound: Headers, data: Json,
                                   backend: Outbound -> Result<Reply, TransportError>,
                                   parse: seq<byte> -> Option<Json>, ser: Json -> string, now: int, reply: Reply)
    requires data.JObject?
    requires backend(PostRequest(cfg, path, inbound, Decoded(data)).value) == Ok(reply)
    requires 400 <= reply.status < 600
    ensures HandlePostAsWritten(cfg, path, inbound, Decoded(data), backend, parse, ser, now) == NoResponse
    ensures HandlePost(cfg, path, inbound, Decoded(data), backend, parse, ser, now)
      == Proxied(reply.status, PassthroughHeaders(reply.headers), reply.body)
  {
  }

  /** As written, an error reply to the model listing gets no answer either. */
  lemma AsWrittenDropsErrorListing(cfg: Config, inbound: Headers,
                                   backend: Outbound -> Result<Reply, TransportError>, reply: Reply)
    requires backend(GetRequest(cfg, inbound)) == Ok(reply)
    requires 400 <= reply.status < 600
    ensures HandleGetAsWritten(cfg, ModelsPath, inbound, backend) == NoResponse
    ensures HandleGet(cfg, ModelsPath, inbound, backend) == Proxied(reply.status, PassthroughHeaders(reply.headers), reply.body)
  {
  }

  /** As intended, every valid POST (a JSON dict) is answered, whatever the backend does. */
  lemma HandlePostAnswersEveryRequest(cfg: Config, path: string, inbound: Headers, data: Json,
                                      backend: Outbound -> Result<Reply, TransportError>,
                                      parse: seq<byte> -> Option<Json>, ser: Json -> string, now: int)
    requires data.JObject?
    ensures HandlePost(cfg, path, inbound, Decoded(data), backend, parse, ser, now) != NoResponse
  {
  }

  /** As intended, every GET is answered, whatever the backend does. */
  lemma HandleGetAnswersEveryRequest(cfg: Config, path: string, inbound: Headers,
                                     backend: Outbound -> Result<Reply, TransportError>)
    ensures HandleGet(cfg, path, inbound, backend) != NoResponse
  {
  }
}
