# Port unification sniffing and the SockJS JSONP-polling transport

This project models two small pieces of Netty in Dafny and proves properties of them.

**Protocol sniffing on a unified port** (`port_unification.dfy`, module `PortUnification`).
`PortUnificationServerHandler` is a frame decoder. It peeks at the first two unsigned bytes of the
read buffer and picks SSL/TLS, gzip, HTTP or the "factorial" example protocol, tried in that order.
- With fewer than two readable bytes it waits.
- On an unknown prefix it discards every readable byte and closes the channel.
- On a match it hands every readable byte on.
- After SSL or gzip it installs a copy of itself. The copy has the detection just used switched off.

The model has five parts:
- the four tests as functions over `Byte` (0..255);
- the ordered decision `Classify`;
- the whole `decode` step as the pure `Sniff`;
- a `Decode` method over a `ChannelBuffer` object with a reader index, proved against `Sniff`;
- `Layers`, the chain of sniffing handlers one connection passes through.

The lemmas show three things about this design. The four tests are mutually exclusive, so the order
never hides a match. Detection flags only switch off. A connection accepted by the default handler is
sniffed at most three times, with every protocol chosen at most once.

**JSONP polling** (`jsonp_polling_transport.dfy`, module `JsonpPolling`). `JsonpPollingTransport`
is a class with a mutable `callback` field.
- `ChannelRead` handles an HTTP request in one of two ways. Without a `c` query parameter it answers
  `500` with the message `"callback" parameter required` in the JavaScript content type. It also fires
  the close-session event and forwards nothing. With the parameter, it stores the parameter's first
  value as the callback and forwards the message.
- `Write` turns a frame into one `200 OK` response with the body `callback("<escaped frame>");\r\n`.
  It also sets the JavaScript content type, a Content-Length equal to the body length, and
  `Connection: close`. Anything that is not a frame produces no response.

The envelope has a partner: `UnwrapJsonp`, what a client holding the callback name recovers from a
body. It is proved to be an exact inverse in both directions.

Strings that reach the wire are byte sequences (`ByteStrings.Bytes`); the literals are ASCII.
`Wrappers.Option` stands for Java's nullable references.

## Model

| member | source | states |
|---|---|---|
| `PortUnification.IsSsl` | src/main/java/io/netty/example/portunification/PortUnificationServerHandler.java:86-96 | true iff SSL detection is on and the first byte is a TLS record type (20..23) or at least 128; the separate 255 case adds nothing |
| `PortUnification.IsGzip` | src/main/java/io/netty/example/portunification/PortUnificationServerHandler.java:98-103 | true iff gzip detection is on and the bytes are 0x1f 0x8b; such a first byte is never an SSL byte |
| `PortUnification.IsHttp` | src/main/java/io/netty/example/portunification/PortUnificationServerHandler.java:105-116 | an accepted prefix consists of two upper-case ASCII letters |
| `PortUnification.IsHttpIffMethodPrefix` | src/main/java/io/netty/example/portunification/PortUnificationServerHandler.java:106-115 | the HTTP test accepts exactly the first two letters of GET, POST, PUT, HEAD, OPTIONS, PATCH, DELETE, TRACE and CONNECT, in both directions |
| `PortUnification.IsFactorial` | src/main/java/io/netty/example/portunification/PortUnificationServerHandler.java:118-120 | an accepted first byte ('F') is ASCII and not a TLS record type |
| `PortUnification.TestsExclusive` | src/main/java/io/netty/example/portunification/PortUnificationServerHandler.java:67-80 | no two of the four tests hold on the same byte pair |
| `PortUnification.Classify` | src/main/java/io/netty/example/portunification/PortUnificationServerHandler.java:67-80 | each protocol is chosen exactly when its own test holds, whatever its place in the SSL, gzip, HTTP, factorial order; unknown exactly when none holds |
| `PortUnification.Successor` | src/main/java/io/netty/example/portunification/PortUnificationServerHandler.java:122-140 | only SSL and gzip install a re-sniffing handler; after SSL it is `(false, detectGzip)`, after gzip `(detectSsl, false)`, so flags only switch off and exactly one does |
| `PortUnification.Sniff` | src/main/java/io/netty/example/portunification/PortUnificationServerHandler.java:57-84 | waits iff fewer than two bytes are readable; rejects iff the prefix is unknown; otherwise forwards exactly the readable bytes with the classified protocol and the successor that protocol installs, which has fewer detections |
| `PortUnification.Decode` | src/main/java/io/netty/example/portunification/PortUnificationServerHandler.java:57-84 | the result is `Sniff` of the readable bytes; the buffer's bytes are unchanged; waiting consumes nothing, while forwarding and rejecting both leave nothing readable |
| `PortUnification.Layers` | src/main/java/io/netty/example/portunification/PortUnificationServerHandler.java:122-140 | the chain of sniffing handlers chooses at most one protocol per prefix it is given, and the first is the one the first handler classifies |
| `PortUnification.LayersBounded` | src/main/java/io/netty/example/portunification/PortUnificationServerHandler.java:122-140 | along any chain of sniffing handlers: at most enabled-detections + 1 layers; every layer but the last is SSL or gzip; a switched-off detection never fires again; no protocol is chosen twice |
| `PortUnification.DefaultHandlerAtMostTwoResniffs` | src/main/java/io/netty/example/portunification/PortUnificationServerHandler.java:47-49 | from the default handler, which has both detections on, at most three protocols are chosen; when there are three, the first two are SSL and gzip in some order |
| `JsonpPolling.CallbackText` | sockjs/src/main/java/io/netty/handler/codec/sockjs/transports/JsonpPollingTransport.java:85 | a stored callback appears as itself; a callback never set appears as `null`, as Java's string concatenation renders it |
| `JsonpPolling.JsonpBody` | sockjs/src/main/java/io/netty/handler/codec/sockjs/transports/JsonpPollingTransport.java:85 | the envelope is exactly 7 bytes longer than the callback and the escaped frame together |
| `JsonpPolling.UnwrapJsonpBody` | sockjs/src/main/java/io/netty/handler/codec/sockjs/transports/JsonpPollingTransport.java:85 | a client that knows the callback recovers exactly the escaped frame from the envelope |
| `JsonpPolling.UnwrapJsonpOnlyBodies` | sockjs/src/main/java/io/netty/handler/codec/sockjs/transports/JsonpPollingTransport.java:85 | every body a client can unwrap is the envelope of what it unwraps to |
| `JsonpPolling.JsonpBodyInjective` | sockjs/src/main/java/io/netty/handler/codec/sockjs/transports/JsonpPollingTransport.java:85 | for a fixed callback, different escaped frames give different bodies (two different callbacks can give the same body) |
| `JsonpPolling.Respond` | sockjs/src/main/java/io/netty/handler/codec/sockjs/transports/JsonpPollingTransport.java:98-105 | the error response carries the request's version, the given status, the JavaScript content type and the message as its body |
| `JsonpPolling.JsonpPollingTransport.constructor` | sockjs/src/main/java/io/netty/handler/codec/sockjs/transports/JsonpPollingTransport.java:52-56 | the transport keeps the request's decoded query and protocol version; no callback is set yet |
| `JsonpPolling.JsonpPollingTransport.ChannelRead` | sockjs/src/main/java/io/netty/handler/codec/sockjs/transports/JsonpPollingTransport.java:58-72 | without `c`: a 500 response in the JavaScript content type with the "callback parameter required" message, the close-session event, nothing forwarded, and the callback unchanged; with `c`: the callback becomes its first value and the message is forwarded unchanged; other messages are forwarded without touching the callback |
| `JsonpPolling.JsonpPollingTransport.Write` | sockjs/src/main/java/io/netty/handler/codec/sockjs/transports/JsonpPollingTransport.java:74-96 | a response exists iff the message is a frame; it has the request's version, status OK, the JavaScript content type and `Connection: close`; its body is the envelope of the escaped frame around the callback (or `null` if none was stored); its Content-Length is the body's length |
| `JsonpPolling.OpenFrameScenario` | sockjs/src/main/java/io/netty/handler/codec/sockjs/transports/JsonpPollingTransport.java:67-85 | a request with `?c=cb` followed by the open frame `o` yields the body `cb("o");\r\n` |

## Left out

- Pipeline surgery in `enableSsl`, `enableGzip`, `switchToHttp` and `switchToFactorial`. The SSL
  engine, zlib codecs, HTTP codecs and factorial handlers are other components. The model keeps the
  chosen protocol and the flags of the successor handler.
- Closing the channel is recorded only as the `Reject` outcome. `ctx.writeAndFlush` and its promise
  are replaced by returning the response as a value. The close-session event is returned as a value
  instead of being fired.
- Netty's `ChannelBuffer` is not part of this model beyond the reader index, the readable bytes,
  `getUnsignedByte`, `skipBytes` and `readBytes`. `readBytes` returns a byte sequence instead of a
  new buffer.
- `FrameDecoder` calls `decode` again while input remains. That loop is not part of this model;
  `Decode` is one call.
- `Layers` takes the prefix each successive handler sees as input. What decryption or inflation
  turns the wire bytes into is not modelled.
- `Transports.escapeJson` is not part of this model. It is the function-typed field `escape`, and
  the transport assumes nothing about it. The one exception is `OpenFrameScenario`, which requires
  that the escaper leaves the text `o` unchanged.
- `Transports.CONTENT_TYPE_JAVASCRIPT` is not part of this model. The constant
  `ContentTypeJavascript` takes it to be `application/javascript; charset=UTF-8`. Every property
  stated relies only on both responses using the same constant.
- `Transports.writeContent` is not part of this model. Only the status, the content type and the
  message body of the error response are modelled. Its other header fields are `None` in the model,
  meaning "not modelled", not "absent".
- `Transports.writeResponse`, `setNoCacheHeaders` and `setSessionIdCookie` are not part of this
  model, and neither is the `Config` they use. Logging is also left out.
- UTF-8 conversion is not modelled. The write path decodes the escaped bytes to a string and
  re-encodes the body; the model treats that as the identity on bytes. This holds when the escaper
  emits valid UTF-8.
- Query-string decoding (`QueryStringDecoder`) is not part of this model. The transport receives the
  decoded parameters. It requires that a present `c` has at least one value (`WellFormedParams`), as
  that decoder guarantees. `c.get(0)` on an empty list would throw.
- The pass-through lifecycle overrides of `JsonpPollingTransport` (lines 107-145) only forward events.
- `AbstractChannelBufferFactory` is a delegator to abstract methods that are not part of this model.
- `SockJSSession` is not part of this model, so `SockJSSessionTest` has nothing to check against.
  The rest of the SockJS session engine is also left out: states, queues, heartbeats, the registry
  and the other transports.
- Without a callback the transport still fires the close-session event
  (JsonpPollingTransport.java:65); the model does the same.
