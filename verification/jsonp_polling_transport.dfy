/**
 * The JSONP-polling transport of SockJS.
 *
 * On the way in, the transport insists on a `c` query parameter naming the
 * client's JavaScript callback and remembers it; without one the request is
 * answered with an error and the session is asked to close. On the way out,
 * each frame becomes one complete HTTP response whose body calls that
 * callback with the JSON-escaped frame text: `callback("<escaped>");\r\n`.
 */
module JsonpPolling {
  import opened Wrappers
  import opened ByteStrings

  /** The protocol version of the request, echoed in every response. */
  datatype HttpVersion = HttpVersion(major: nat, minor: nat)

  datatype HttpStatus = Ok | InternalServerError
  {
    function Code(): nat
    {
      match this
      case Ok => 200
      case InternalServerError => 500
    }
  }

  /**
   * A full HTTP response. Only the headers the transport itself sets are
   * fields; `None` means the header is not set by the code modelled here.
   */
  datatype HttpResponse = HttpResponse(
    version: HttpVersion,
    status: HttpStatus,
    contentType: Bytes,
    contentLength: Option<nat>,
    connection: Option<Bytes>,
    content: Bytes)

  /** A SockJS frame; `content` is its canonical text encoding. */
  datatype Frame = Frame(content: Bytes)

  /**
   * Messages travelling up the pipeline. The URI of an incoming request
   * message is never read: the callback is looked up in the query of the
   * request the transport was created for.
   */
  datatype Inbound = HttpRequestMessage(uri: Bytes) | OtherInbound(payload: Bytes)

  /** Messages written down the pipeline. */
  datatype Outbound = FrameMessage(frame: Frame) | OtherOutbound(payload: Bytes)

  /** User events fired to the session handler. */
  datatype SessionEvent = CloseSession

  /**
   * What one `channelRead` does: the response written back to the client,
   * the user event fired, and the message passed to the next handler.
   */
  datatype ReadOutcome = ReadOutcome(
    response: Option<HttpResponse>,
    event: Option<SessionEvent>,
    forwarded: Option<Inbound>)

  /** The name of the callback query parameter. */
  const CallbackParam: Bytes := Ascii("c")

  const CallbackRequired: Bytes := Ascii("\"callback\" parameter required")

  const ContentTypeJavascript: Bytes := Ascii("application/javascript; charset=UTF-8")

  const ConnectionClose: Bytes := Ascii("close")

  /** How Java renders a null callback in a string concatenation. */
  const NullText: Bytes := Ascii("null")

  /** `("` — opens the call and the string literal. */
  const CallOpen: Bytes := Ascii("(\"")

  /** `");` and CRLF — closes the string literal, the call and the line. */
  const CallClose: Bytes := Ascii("\");\r\n")

  /** Decoded query parameters never map a name to an empty list of values. */
  predicate WellFormedParams(params: map<Bytes, seq<Bytes>>)
  {
    CallbackParam in params ==> |params[CallbackParam]| > 0
  }

  /** The callback as it appears in the body: the remembered name, or `null`. */
  function CallbackText(callback: Option<Bytes>): (text: Bytes)
    ensures callback.Some? ==> text == callback.value
    ensures callback.None? ==> text == Ascii("null")
  {
    match callback
    case Some(name) => name
    case None => NullText
  }

  /** The JSONP envelope around an already escaped frame. */
  function JsonpBody(callback: Bytes, escaped: Bytes): (body: Bytes)
    ensures |body| == |callback| + |escaped| + 7
  {
    callback + CallOpen + escaped + CallClose
  }

  /**
   * What a client holding callback name `callback` recovers from a body:
   * the escaped frame text, if the body has the JSONP shape.
   */
  function UnwrapJsonp(callback: Bytes, body: Bytes): Option<Bytes>
  {
    var n := |callback|;
    if |body| >= n + 7 && body[..n] == callback && body[n..n + 2] == CallOpen
       && body[|body| - 5..] == CallClose
    then Some(body[n + 2..|body| - 5])
    else None
  }

  /** Unwrapping a JSONP body gives back exactly the escaped frame. */
  lemma UnwrapJsonpBody(callback: Bytes, escaped: Bytes)
    ensures UnwrapJsonp(callback, JsonpBody(callback, escaped)) == Some(escaped)
  {
  }

  /** Every body a client can unwrap is the envelope of what it unwraps to. */
  lemma UnwrapJsonpOnlyBodies(callback: Bytes, body: Bytes, escaped: Bytes)
    requires UnwrapJsonp(callback, body) == Some(escaped)
    ensures body == JsonpBody(callback, escaped)
  {
  }

  /** For a fixed callback, the envelope determines the escaped frame. */
  lemma {:induction false} JsonpBodyInjective(callback: Bytes, e1: Bytes, e2: Bytes)
    requires JsonpBody(callback, e1) == JsonpBody(callback, e2)
    ensures e1 == e2
  {
    UnwrapJsonpBody(callback, e1);
    UnwrapJsonpBody(callback, e2);
  }

  /** The error response written by `respond`: JavaScript content type, `message` as body. */
  function Respond(version: HttpVersion, status: HttpStatus, message: Bytes): (r: HttpResponse)
    ensures r.version == version && r.status == status
    ensures r.contentType == ContentTypeJavascript
    ensures r.content == message
  {
    HttpResponse(version, status, ContentTypeJavascript, None, None, message)
  }

  /**
   * One JSONP-polling transport, created for one HTTP request. `params` and
   * `version` come from that request; `escape` stands for the JSON escaper
   * shared by all transports, about which the transport assumes nothing.
   */
  class JsonpPollingTransport {
    const params: map<Bytes, seq<Bytes>>
    const version: HttpVersion
    const escape: Bytes -> Bytes
    var callback: Option<Bytes>

    constructor (params: map<Bytes, seq<Bytes>>, version: HttpVersion, escape: Bytes -> Bytes)
      requires WellFormedParams(params)
      ensures this.params == params && this.version == version && this.escape == escape
      ensures callback == None
    {
      this.params := params;
      this.version := version;
      this.escape := escape;
      callback := None;
    }

    /**
     * An inbound message. For an HTTP request the callback parameter is
     * looked up in the query of the request the transport was created for:
     * missing, the client gets an error, the session is asked to close and
     * nothing is forwarded; present, its first value becomes the callback.
     * Any other message is forwarded untouched.
     */
    method ChannelRead(msg: Inbound) returns (out: ReadOutcome)
      requires WellFormedParams(params)
      modifies this`callback
      ensures msg.HttpRequestMessage? && CallbackParam !in params ==>
        && out.response == Some(Respond(version, InternalServerError, CallbackRequired))
        && out.response.value.status.Code() == 500
        && out.response.value.contentType == ContentTypeJavascript
        && out.event == Some(CloseSession)
        && out.forwarded == None
        && callback == old(callback)
      ensures msg.HttpRequestMessage? && CallbackParam in params ==>
        callback == Some(params[CallbackParam][0])
      ensures !msg.HttpRequestMessage? ==> callback == old(callback)
      ensures !(msg.HttpRequestMessage? && CallbackParam !in params) ==>
        out == ReadOutcome(None, None, Some(msg))
    {
      if msg.HttpRequestMessage? {
        if CallbackParam !in params {
          var response := Respond(version, InternalServerError, CallbackRequired);
          return ReadOutcome(Some(response), Some(CloseSession), None);
        } else {
          callback := Some(params[CallbackParam][0]);
        }
      }
      out := ReadOutcome(None, None, Some(msg));
    }

    /**
     * An outbound message. A frame becomes one complete `200 OK` response
     * carrying the JSONP envelope, with a Content-Length equal to the body's
     * length and `Connection: close`; anything else is dropped.
     */
    method Write(msg: Outbound) returns (response: Option<HttpResponse>)
      ensures response.Some? <==> msg.FrameMessage?
      ensures response.Some? ==>
        && response.value.version == version
        && response.value.status == Ok
        && response.value.contentType == ContentTypeJavascript
        && response.value.connection == Some(ConnectionClose)
        && response.value.content == JsonpBody(CallbackText(callback), escape(msg.frame.content))
        && response.value.contentLength == Some(|response.value.content|)
    {
      if !msg.FrameMessage? {
        return None;
      }
      var escaped := escape(msg.frame.content);
      var call := CallbackText(callback) + CallOpen + escaped + CallClose;
      response := Some(HttpResponse(version, Ok, ContentTypeJavascript, Some(|call|),
                                    Some(ConnectionClose), call));
    }
  }

  /**
   * A JSONP poll for a new session, `?c=cb`, answered with the open frame
   * `o`: with an escaper that leaves `o` alone, the body is `cb("o");\r\n`.
   */
  method OpenFrameScenario(escape: Bytes -> Bytes) returns (body: Bytes)
    requires escape(Ascii("o")) == Ascii("o")
    ensures body == Ascii("cb(\"o\");\r\n")
  {
    var transport := new JsonpPollingTransport(map[CallbackParam := [Ascii("cb")]], HttpVersion(1, 1), escape);
    var read := transport.ChannelRead(HttpRequestMessage(Ascii("/s2/jsonp?c=cb")));
    assert read.forwarded.Some?;
    var response := transport.Write(FrameMessage(Frame(Ascii("o"))));
    body := response.value.content;
  }
}
