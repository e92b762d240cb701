/**
 * The handler's decisions for GET and POST: routing, the forced `stream: false`,
 * the transform-or-passthrough test, the passthrough header allow-list and the
 * event-stream reply. The HTTP library call is the parameter `backend`, decoding
 * a backend body is the parameter `parse`, the JSON serialiser is `ser`.
 */
module ProxyHandler {
  import opened Wrappers
  import opened JsonValue
  import opened Text
  import opened StreamSimulator
  import opened SseWriter
  import opened Forwarder

  newtype byte = x: int | 0 <= x < 256

  /** A backend reply: status, headers (one field per name) and body bytes. */
  datatype Reply = Reply(status: int, headers: Headers, body: seq<byte>)

  /** What the client receives. */
  datatype ClientResponse =
    | ErrorPage(status: int)                         // send_error
    | Proxied(status: int, headers: Headers, body: seq<byte>)
    | EventStream(events: seq<string>)               // 200, text/event-stream, no-cache, connection close
    | EventStreamAborted                             // event-stream headers sent, then the simulator raised
    | RawAfterEventHeaders(body: seq<byte>)          // event-stream headers sent, body was not JSON
    | NoResponse                                     // the handler ends without answering

  const ModelsPath := "/v1/models"

  const PassthroughNames := {"content-type", "content-length", "date"}

  /** The reply headers copied on passthrough, in their original order. */
  function PassthroughHeaders(hs: Headers): (r: Headers)
    ensures |r| <= |hs|
    ensures forall h :: h in r ==> h in hs && Lower(h.0) in PassthroughNames
    ensures forall h :: h in hs && Lower(h.0) in PassthroughNames ==> h in r
  {
    if hs == [] then []
    else (if Lower(hs[0].0) in PassthroughNames then [hs[0]] else []) + PassthroughHeaders(hs[1..])
  }

  function Passthrough(reply: Reply): ClientResponse {
    Proxied(reply.status, PassthroughHeaders(reply.headers), reply.body)
  }

  /** A reply is turned into an event stream only when it is 200 and declares JSON. */
  predicate Transforms(reply: Reply) {
    reply.status == 200 && Contains(HeaderGetOr(reply.headers, "Content-Type", ""), "application/json")
  }

  /** Truthiness of the HTTP library's response object: false for 4xx and 5xx statuses. */
  predicate ReplyTruthy(reply: Reply) {
    !(400 <= reply.status < 600)
  }

  /** How the POST body decodes: bytes that are not UTF-8, text that is not JSON, or a value. */
  datatype BodyDecode = NotUtf8 | NotJson | Decoded(value: Json)

  /** `request_data['stream'] = False`: only a dict accepts the assignment. */
  function ForceNonStreaming(body: Json): (r: Option<Json>)
    ensures r.Some? <==> body.JObject?
    ensures r.Some? ==> && r.value.JObject?
                        && r.value.fields.Keys == body.fields.Keys + {"stream"}
                        && r.value.fields["stream"] == JBool(false)
                        && forall k :: k in body.fields && k != "stream" ==> r.value.fields[k] == body.fields[k]
  {
    match body
    case JObject(fields) => Some(JObject(fields["stream" := JBool(false)]))
    case _ => None
  }

  /** The POST request to forward, or the answer given instead. */
  function PostRequest(cfg: Config, path: string, inbound: Headers, body: BodyDecode): Result<Outbound, ClientResponse> {
    match body
    case NotUtf8 => Err(NoResponse)          // the decode error is not the one caught: the handler raises
    case NotJson => Err(ErrorPage(400))
    case Decoded(data) =>
      match ForceNonStreaming(data)
      case None => Err(NoResponse)           // item assignment on a non-dict raises
      case Some(forwarded) => Ok(BuildRequest(cfg, "POST", path, inbound, Some(forwarded)))
  }

  /** The answer to a backend reply that the handler goes on to use. */
  function AnswerPost(cfg: Config, reply: Reply, parse: seq<byte> -> Option<Json>, ser: Json -> string, now: int): ClientResponse {
    if Transforms(reply) then
      match parse(reply.body)
      case None => RawAfterEventHeaders(reply.body)
      case Some(data) =>
        match Simulate(data, ChunkSize(cfg), now, ser)
        case Ok(chunks) => EventStream(EventFrames(chunks, ser))
        case Err(_) => EventStreamAborted
    else Passthrough(reply)
  }

  /** POST exactly as written: `if response:` also skips every 4xx and 5xx reply. */
  function HandlePostAsWritten(cfg: Config, path: string, inbound: Headers, body: BodyDecode,
                               backend: Outbound -> Result<Reply, TransportError>,
                               parse: seq<byte> -> Option<Json>, ser: Json -> string, now: int): ClientResponse
  {
    match PostRequest(cfg, path, inbound, body)
    case Err(answer) => answer
    case Ok(request) =>
      match backend(request)
      case Err(e) => ErrorPage(ErrorStatus(e))
      case Ok(reply) => if ReplyTruthy(reply) then AnswerPost(cfg, reply, parse, ser, now) else NoResponse
  }

  /** POST as intended: every backend reply is answered, error statuses passed through. */
  function HandlePost(cfg: Config, path: string, inbound: Headers, body: BodyDecode,
                      backend: Outbound -> Result<Reply, TransportError>,
                      parse: seq<byte> -> Option<Json>, ser: Json -> string, now: int): ClientResponse
  {
    match PostRequest(cfg, path, inbound, body)
    case Err(answer) => answer
    case Ok(request) =>
      match backend(request)
      case Err(e) => ErrorPage(ErrorStatus(e))
      case Ok(reply) => AnswerPost(cfg, reply, parse, ser, now)
  }

  function GetRequest(cfg: Config, inbound: Headers): Outbound {
    BuildRequest(cfg, "GET", ModelsPath, inbound, None)
  }

  /** GET exactly as written: only the model listing, and `if response:` skips 4xx and 5xx. */
  function HandleGetAsWritten(cfg: Config, path: string, inbound: Headers,
                              backend: Outbound -> Result<Reply, TransportError>): ClientResponse
  {
    if path != ModelsPath then ErrorPage(404)
    else
      match backend(GetRequest(cfg, inbound))
      case Err(e) => ErrorPage(ErrorStatus(e))
      case Ok(reply) => if ReplyTruthy(reply) then Passthrough(reply) else NoResponse
  }

  /** GET as intended: the model listing is passed through whatever its status. */
  function HandleGet(cfg: Config, path: string, inbound: Headers,
                     backend: Outbound -> Result<Reply, TransportError>): ClientResponse
  {
    if path != ModelsPath then ErrorPage(404)
    else
      match backend(GetRequest(cfg, inbound))
      case Err(e) => ErrorPage(ErrorStatus(e))
      case Ok(reply) => Passthrough(reply)
  }
}
