# llama-stream: streaming simulation core

`llama-stream.py` is an HTTP reverse proxy in front of a chat-completion backend. It
always asks the backend for a complete, non-streaming reply and, when that reply is a
200 JSON chat completion, re-emits it to the client as a simulated Server-Sent-Events
stream of `chat.completion.chunk` objects terminated by `data: [DONE]`.

This project models, in Dafny:

- the stream simulator `_simulate_streaming` (`StreamSimulator.Simulate`, the generator
  as a value; `StreamSimulator.SimulateStreaming` and `YieldPieces`, the generator's
  loop as a method proved equal to it), with its four branches: tool calls, text (or
  list) content cut into pieces, empty content, and the escape hatch for a response
  without usable `choices`. Python's exceptions inside the generator are modelled as
  `Err(Fault)` values;
- the piece cutting `content[i:i+size]` for `i in range(0, len(content), size)` (`Chunking`);
- SSE framing of the chunks and the single trailing `[DONE]` event (`SseWriter`);
- the forwarding decisions: configuration defaults, TLS-verify resolution, the outbound
  header whitelist, the outbound request, and the mapping of transport exceptions to
  502/503/504/500 (`Forwarder`);
- the handler decisions: GET routing, forcing `stream: false` on a POST body, 400 for a
  body that is not JSON, the transform-or-passthrough test and the passthrough header
  allow-list (`ProxyHandler`), with the client-facing promises in `HandlerProperties`.

The clock is the parameter `now`, `json.dumps` is the opaque serialiser `ser`, decoding
a backend body is the opaque `parse`, and the HTTP library call is the function
`backend` from an outbound request to a reply or a transport error.

The model follows the code where it departs from what its comments and names suggest:

- the non-escape branches copy `object` from the backend's response, despite the
  "Simulate chunk object" comment; the chunk type is only the default when the key is
  absent (`MetadataCopied`);
- any truthy `content` takes the content branch: a list is sliced like a string, a
  truthy number or boolean makes the generator raise, and so does a dict unless the
  chunk size is negative (then the range is empty, no slice is taken and only the
  "stop" chunk is yielded); a chunk size of 0 makes `range` raise;
- a POST body that is not valid UTF-8, or that is JSON but not a dict, makes the handler
  raise instead of answering 400 (`PostRequest` gives `NoResponse`);
- a connect timeout is an instance of the connection-error class, so the earlier clause
  answers it with 503, not 504 (`ErrorStatusTable`);
- a backend reply with status 400 to 599 is not passed through as written; see Findings.

Determinism of the emitter holds by construction: `Simulate` is a function of the
response, the chunk size, `now` and `ser`.

## Model

| member | source | states |
|---|---|---|
| `Chunking.PiecesSpec` | llama-stream.py:215-216 | the pieces of `s` are `s[k*size : k*size+size]` in order; their count n is ceil(len/size) (`len <= n*size < len+size`); each is non-empty and at most `size` long; joined they give back `s` |
| `Chunking.PiecesFromFlatten` | llama-stream.py:215-216 | the slices from offset `start` on, joined, equal `s[start:]` |
| `Chunking.PiecesFromSizes` | llama-stream.py:215-216 | every slice is non-empty and at most `size` long |
| `Chunking.PiecesFromCount` | llama-stream.py:215-216 | the number of slices from `start` is ceil((len-start)/size) |
| `Chunking.PiecesFromAt` | llama-stream.py:215-216 | slice k from `start` is `s[start+k*size : start+k*size+size]` and starts inside `s` |
| `Chunking.HelloWorldPieces` | llama-stream.py:215-216 | "Hello, world!" in pieces of 5 is "Hello", ", wor", "ld!" |
| `StreamSimulator.YieldPieces` | llama-stream.py:215-226 | the loop yields one chunk per piece, in order, the first delta with role "assistant" and content, later deltas with content only, all with finish_reason null |
| `StreamSimulator.SimulateStreaming` | llama-stream.py:177-265 | running the generator to exhaustion gives exactly `Simulate`'s chunk list, or the same fault |
| `StreamProperties.TextContentStream` | llama-stream.py:213-237 | non-empty text content without tool calls gives ceil(L/size)+1 chunks: pieces of at most `size` characters, the first with role "assistant", all with finish_reason null and the copied metadata, then one empty-delta "stop" chunk; the streamed text joins back to the content |
| `StreamProperties.TextChunksShape` | llama-stream.py:215-237 | the same shape facts about the chunk list built from the pieces of any non-empty text |
| `StreamProperties.TextPiecesJoin` | llama-stream.py:215-237 | joining the `delta.content` strings of the text chunks, in order, reproduces the text exactly |
| `StreamProperties.StreamedTextFlatten` | llama-stream.py:215-226 | joining chunk texts equals flattening the per-chunk texts, in order |
| `StreamProperties.PieceStreamShape` | llama-stream.py:215-237 | for any sliceable content, chunk k carries slice k with role only on k = 0, and the last chunk is the "stop" chunk |
| `StreamProperties.TextBranchTaken` | llama-stream.py:183-237 | a dict message with non-empty string content and no truthy tool calls takes the content branch |
| `StreamProperties.ListContentStream` | llama-stream.py:213-237 | non-empty list content is cut the same way: chunk k carries `items[k*size : k*size+size]`, then "stop" |
| `StreamProperties.ToolCallsWin` | llama-stream.py:197-212 | truthy tool_calls give exactly one chunk with delta {role "assistant", content null, tool_calls unchanged} and finish_reason "tool_calls", whatever the content |
| `StreamProperties.EmptyContentStops` | llama-stream.py:238-248 | choices present with falsy content and falsy tool_calls give exactly one empty-delta "stop" chunk |
| `StreamProperties.EscapeHatch` | llama-stream.py:249-265 | a dict response whose choices are missing, not a list or empty gives two chunks: the serialised response as content (finish null, object forced to the chunk type, model "unknown-model", created now, id copied or defaulted), then "stop" |
| `StreamProperties.MetadataCopied` | llama-stream.py:189-195 | outside the escape hatch every chunk copies id, object, created and model from the response, with the defaults "chatcmpl-default-id", "chat.completion.chunk", now and "gpt-3.5-turbo-0613" |
| `StreamProperties.FinishReasonOnlyOnLast` | llama-stream.py:197-265 | every finished stream is non-empty, only its last chunk has a finish_reason ("stop" or "tool_calls"), a "tool_calls" finish is the only chunk, and all chunks share one metadata record |
| `StreamProperties.SimulateFailsExactly` | llama-stream.py:183-216 | the generator raises exactly for a non-dict response, a non-dict first choice or message, or truthy content without tool calls that is a number/bool, or meets size 0, or is a dict with positive size |
| `StreamProperties.HelloWorldStream` | llama-stream.py:213-237 | "Hello, world!" with size 5 streams "Hello" (with role), ", wor", "ld!", then "stop" |
| `SseWriter.WriteEvents` | llama-stream.py:161-164 | the write loop produces one `data:` event per chunk, in order, then the `[DONE]` event |
| `SseWriter.DoneExactlyOnceAtEnd` | llama-stream.py:161-164 | event k is `"data: " + ser(chunk k) + "\n\n"` and `[DONE]` is written exactly once, as the last write |
| `Forwarder.ResolveVerify` | llama-stream.py:48-61 | a non-https target or an absent setting verifies; a string other than "true"/"false" (any case) is returned unchanged as a CA path, only for https targets; verification is off exactly when the setting is neither true-valued nor such a path |
| `Forwarder.VerifyExamples` | llama-stream.py:48-61 | "TRUE" verifies, "False" does not, a path is kept, an http target ignores the setting |
| `Forwarder.OutboundHeaders` | llama-stream.py:65-71 | the forwarded names are among Authorization, Content-Type, Accept and no forwarded value is empty |
| `Forwarder.OutboundHeaderRule` | llama-stream.py:65-71 | a whitelisted header sent non-empty is forwarded unchanged, sent empty is dropped, and absent gets its default ("application/json", "*/*", none for Authorization) |
| `Forwarder.NoInboundHeaders` | llama-stream.py:65-71 | with no client headers exactly Content-Type "application/json" and Accept "*/*" are forwarded |
| `Forwarder.StatusFor` | llama-stream.py:91-106 | the first matching clause decides: SSL 502, else connection 503, else timeout 504, else 500, and nothing else |
| `Forwarder.ErrorStatusTable` | llama-stream.py:91-106 | SSL errors 502, proxy and connection errors 503, connect timeouts 503, read timeouts 504, anything else 500 |
| `ProxyHandler.PassthroughHeaders` | llama-stream.py:169-171 | only content-type, content-length and date (any case) are copied, each one that is present is copied, and nothing is added |
| `ProxyHandler.ForceNonStreaming` | llama-stream.py:139-140 | a dict body gets `stream` false with every other key unchanged; any other JSON value cannot be forwarded |
| `HandlerProperties.InvalidJsonRejected` | llama-stream.py:129-137 | a body that is not JSON is answered 400 and nothing is forwarded, whatever the backend |
| `HandlerProperties.ForwardedPostNeverStreams` | llama-stream.py:139-142 | a forwarded POST goes to target + path with the whitelisted headers, the resolved TLS setting, and the client's dict with `stream` false |
| `HandlerProperties.EventStreamOnlyForJson200` | llama-stream.py:144-166 | in the handler as written and as intended, the client gets an event stream exactly when the reply is 200 and its Content-Type contains "application/json" |
| `HandlerProperties.EventStreamFrames` | llama-stream.py:145-165 | a simulated reply is written, by the handler as written and as intended alike, as one `data:` event per chunk in order, then a single `[DONE]` at the end |
| `HandlerProperties.AsWrittenAgreesOutsideErrorStatuses` | llama-stream.py:125-175 | unless the backend replies with a status from 400 to 599, the POST handler as written answers exactly as the intended one |
| `HandlerProperties.GetAsWrittenAgreesOutsideErrorStatuses` | llama-stream.py:108-123 | unless the model listing is answered with a status from 400 to 599, the GET handler as written answers exactly as the intended one |
| `HandlerProperties.OtherRepliesPassThrough` | llama-stream.py:166-175 | any other reply is passed through with its status, allow-listed headers and unchanged body |
| `HandlerProperties.TransportFailureAnswered` | llama-stream.py:91-106 | a transport failure is answered once with its mapped status; an SSL failure with 502 |
| `HandlerProperties.GetRouting` | llama-stream.py:108-123 | GET serves only `/v1/models`, passed through and never transformed; any other path is 404, as written and as intended |
| `HandlerProperties.AsWrittenDropsErrorReplies` | llama-stream.py:142-175 | as written, a 4xx/5xx backend reply to a valid POST gets no answer, where the intended handler passes it through |
| `HandlerProperties.AsWrittenDropsErrorListing` | llama-stream.py:110-121 | as written, a 4xx/5xx reply to the model listing gets no answer, where the intended handler passes it through |
| `HandlerProperties.HandlePostAnswersEveryRequest` | llama-stream.py:142-175 | the intended POST handler answers every dict body, whatever the backend does |
| `HandlerProperties.HandleGetAnswersEveryRequest` | llama-stream.py:108-123 | the intended GET handler answers every request, whatever the backend does |

## Findings

| source | as written | input that shows it | evidently intended | confidence | as-written member | corrected member |
|---|---|---|---|---|---|---|
| llama-stream.py:144 | `if response:` tests the HTTP library response's truthiness, which is false for every status from 400 to 599, so the "proxy non-200 responses as they are" branch never sees error replies and the client gets no answer | a valid JSON POST whose backend reply has status 500 | pass the error reply through with its status, allow-listed headers and body | high; not executed | `ProxyHandler.HandlePostAsWritten`, shown by `HandlerProperties.AsWrittenDropsErrorReplies` | `ProxyHandler.HandlePost`, with `HandlerProperties.HandlePostAnswersEveryRequest` and `HandlerProperties.OtherRepliesPassThrough` |
| llama-stream.py:112 | the same truthiness test on the model listing skips every 4xx/5xx reply | GET `/v1/models` answered 401 by the backend | pass the reply through | high; not executed | `ProxyHandler.HandleGetAsWritten`, shown by `HandlerProperties.AsWrittenDropsErrorListing` | `ProxyHandler.HandleGet`, with `HandlerProperties.HandleGetAnswersEveryRequest` and `HandlerProperties.GetRouting` |

## Left out

- The HTTP server and socket I/O (`send_response`, `send_header`, `wfile.write`, `flush`): the answer is the value `ClientResponse`; flushing after each event and the fixed event-stream headers are not modelled.
- The HTTP library call, the 8 KiB `iter_content` blocks and `response.json()`: the call is the parameter `backend`, a body is passed through as one byte sequence, decoding is the parameter `parse`.
- The fallback that writes the raw body after event-stream headers when the body is not JSON: only its outcome `RawAfterEventHeaders` is modelled.
- `json.dumps`, `json.loads` and UTF-8 decoding: opaque parameters (`ser`, `parse`, `BodyDecode`); the key order of serialised dicts is not modelled, because objects are maps.
- `time.time()`: the parameter `now`. The escape branch reads the clock twice; the model uses one reading for both chunks.
- Reading the request body by `Content-Length` (a missing header makes the handler raise).
- Floating-point JSON numbers, strings holding lone surrogates, and Unicode lower-casing beyond ASCII letters (every lower-cased comparison in the core is against an ASCII word).
- Configuration values of unexpected types (a non-integer chunk size, a non-string target URL), YAML loading, logging, `run`, `serve_forever` and the command line.
- Merging of duplicate response headers, which the HTTP library does before the proxy sees them.
- The diagnostic texts passed to `send_error` and every log call.
- Client disconnects while the stream is written.
- ProxyHandler.PassthroughHeaders: its contract states which headers are kept and that none is added, not that their order is kept (the definition keeps it).
