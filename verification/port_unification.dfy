/**
 * Protocol sniffing on a unified server port.
 *
 * A `PortUnificationServerHandler` sits first in a channel pipeline, looks at
 * the first two unsigned bytes a client sends, and decides which protocol the
 * connection speaks: SSL/TLS, gzip-compressed traffic, HTTP, or the
 * "factorial" example protocol. SSL and gzip only peel off a layer: the
 * handler is replaced by a copy of itself that sniffs the decrypted or
 * inflated bytes again, with the detection it has just used switched off.
 */
module PortUnification {
  import opened Wrappers
  import opened ByteStrings

  /** The two detection flags; both are final in the handler. */
  datatype Handler = Handler(detectSsl: bool, detectGzip: bool)

  /** The protocol chosen for a two-byte prefix. */
  datatype Protocol = Ssl | Gzip | Http | Factorial | Unknown

  /** What one call of `decode` does with the read buffer. */
  datatype DecodeResult =
    | Wait
      // fewer than two readable bytes: nothing consumed, pipeline unchanged
    | Forward(bytes: Bytes, protocol: Protocol, successor: Option<Handler>)
      // a protocol matched: every readable byte is handed on; `successor`
      // is the re-sniffing handler installed behind an SSL or gzip layer
    | Reject
      // unknown prefix: every readable byte is skipped and the channel closed

  /** The public no-argument constructor: both detections enabled. */
  const DefaultHandler := Handler(true, true)

  /** The nine HTTP request methods whose first two letters identify HTTP. */
  const HttpMethods: seq<string> :=
    ["GET", "POST", "PUT", "HEAD", "OPTIONS", "PATCH", "DELETE", "TRACE", "CONNECT"]

  /** The TLS record ContentType values of section 6.2.1 of RFC 5246. */
  ghost predicate TlsContentType(b: Byte)
  {
    20 <= b <= 23
  }

  /** (b0, b1) are the first two ASCII letters of one of `HttpMethods`. */
  ghost predicate HttpMethodPrefix(b0: Byte, b1: Byte)
  {
    exists i :: 0 <= i < |HttpMethods| && b0 == HttpMethods[i][0] as int && b1 == HttpMethods[i][1] as int
  }

  /** Number of detections still enabled. */
  function Enabled(h: Handler): (n: nat)
    ensures n <= 2
    ensures n == 0 <==> !h.detectSsl && !h.detectGzip
  {
    (if h.detectSsl then 1 else 0) + (if h.detectGzip then 1 else 0)
  }

  /** The SSL test: the listed record types, 255, or any byte with the high bit set. */
  function IsSsl(detectSsl: bool, magic1: Byte): (r: bool)
    ensures r <==> detectSsl && (TlsContentType(magic1) || magic1 >= 128)
  {
    if detectSsl then
      if magic1 in {20, 21, 22, 23, 255} then true else magic1 >= 128
    else
      false
  }

  /** The gzip test: the ID1/ID2 bytes of section 2.3.1 of RFC 1952. */
  function IsGzip(detectGzip: bool, magic1: Byte, magic2: Byte): (r: bool)
    ensures r ==> magic1 < 128 && !TlsContentType(magic1)
    ensures r <==> detectGzip && magic1 == 0x1f && magic2 == 0x8b
  {
    if detectGzip then magic1 == 31 && magic2 == 139 else false
  }

  /** The HTTP test: the first two letters of a request method. */
  function IsHttp(magic1: Byte, magic2: Byte): (r: bool)
    ensures r ==> 'A' as int <= magic1 <= 'Z' as int && 'A' as int <= magic2 <= 'Z' as int
  {
    (magic1 == 'G' as int && magic2 == 'E' as int) || // GET
    (magic1 == 'P' as int && magic2 == 'O' as int) || // POST
    (magic1 == 'P' as int && magic2 == 'U' as int) || // PUT
    (magic1 == 'H' as int && magic2 == 'E' as int) || // HEAD
    (magic1 == 'O' as int && magic2 == 'P' as int) || // OPTIONS
    (magic1 == 'P' as int && magic2 == 'A' as int) || // PATCH
    (magic1 == 'D' as int && magic2 == 'E' as int) || // DELETE
    (magic1 == 'T' as int && magic2 == 'R' as int) || // TRACE
    (magic1 == 'C' as int && magic2 == 'O' as int)    // CONNECT
  }

  /** The factorial test: the first byte is 'F'. */
  function IsFactorial(magic1: Byte): (r: bool)
    ensures r ==> magic1 < 128 && !TlsContentType(magic1)
  {
    magic1 == 'F' as int
  }

  /**
   * The decision chain of `decode`: SSL, then gzip, then HTTP, then
   * factorial. Because the four tests never hold together, each protocol is
   * chosen exactly when its own test holds, whatever its place in the chain.
   */
  function Classify(detectSsl: bool, detectGzip: bool, magic1: Byte, magic2: Byte): (p: Protocol)
    ensures p == Ssl <==> detectSsl && (TlsContentType(magic1) || magic1 >= 128)
    ensures p == Gzip <==> detectGzip && magic1 == 31 && magic2 == 139
    ensures p == Http <==> IsHttp(magic1, magic2)
    ensures p == Factorial <==> magic1 == 'F' as int
    ensures p == Unknown <==>
      !IsSsl(detectSsl, magic1) && !IsGzip(detectGzip, magic1, magic2) &&
      !IsHttp(magic1, magic2) && !IsFactorial(magic1)
  {
    if IsSsl(detectSsl, magic1) then Ssl
    else if IsGzip(detectGzip, magic1, magic2) then Gzip
    else if IsHttp(magic1, magic2) then Http
    else if IsFactorial(magic1) then Factorial
    else Unknown
  }

  /**
   * The handler installed behind the layer that `p` enables: after SSL the
   * copy stops looking for SSL, after gzip it stops looking for gzip; HTTP,
   * factorial and unknown install no sniffing handler.
   */
  function Successor(h: Handler, p: Protocol): (s: Option<Handler>)
    requires p == Ssl ==> h.detectSsl
    requires p == Gzip ==> h.detectGzip
    ensures s.Some? <==> p == Ssl || p == Gzip
    ensures s.Some? ==> (s.value.detectSsl ==> h.detectSsl) && (s.value.detectGzip ==> h.detectGzip)
    ensures s.Some? ==> Enabled(s.value) + 1 == Enabled(h)
    ensures p == Ssl ==> s == Some(Handler(false, h.detectGzip))
    ensures p == Gzip ==> s == Some(Handler(h.detectSsl, false))
  {
    match p
    case Ssl => Some(Handler(false, h.detectGzip))
    case Gzip => Some(Handler(h.detectSsl, false))
    case _ => None
  }

  /** What `decode` does, given the readable bytes of the buffer. */
  function Sniff(h: Handler, readable: Bytes): (r: DecodeResult)
    ensures r.Wait? <==> |readable| < 2
    ensures r.Reject? <==> |readable| >= 2 && Classify(h.detectSsl, h.detectGzip, readable[0], readable[1]) == Unknown
    ensures r.Forward? ==>
      && r.bytes == readable
      && r.protocol == Classify(h.detectSsl, h.detectGzip, readable[0], readable[1])
      && r.protocol != Unknown
      && (r.successor.Some? <==> r.protocol == Ssl || r.protocol == Gzip)
      && (r.successor.Some? ==> Enabled(r.successor.value) < Enabled(h))
      && r.successor == Successor(h, r.protocol)
  {
    if |readable| < 2 then Wait
    else
      var p := Classify(h.detectSsl, h.detectGzip, readable[0], readable[1]);
      if p == Unknown then Reject else Forward(readable, p, Successor(h, p))
  }

  /**
   * The read side of a channel buffer: the bytes written so far and the
   * reader index. Only the operations `decode` uses are modelled.
   */
  class ChannelBuffer {
    var bytes: Bytes
    var readerIndex: nat

    ghost predicate Valid()
      reads this
    {
      readerIndex <= |bytes|
    }

    constructor (content: Bytes)
      ensures Valid() && bytes == content && readerIndex == 0
    {
      bytes := content;
      readerIndex := 0;
    }

    /** The bytes between the reader index and the writer index. */
    function Readable(): Bytes
      reads this
      requires Valid()
    {
      bytes[readerIndex..]
    }

    function ReadableBytes(): (n: nat)
      reads this
      requires Valid()
      ensures n == |Readable()|
    {
      |bytes| - readerIndex
    }

    /** Absolute read: does not move the reader index. */
    function GetUnsignedByte(index: nat): Byte
      reads this
      requires index < |bytes|
    {
      bytes[index]
    }

    method SkipBytes(length: nat)
      requires Valid() && length <= ReadableBytes()
      modifies this`readerIndex
      ensures Valid() && readerIndex == old(readerIndex) + length
    {
      readerIndex := readerIndex + length;
    }

    method ReadBytes(length: nat) returns (out: Bytes)
      requires Valid() && length <= ReadableBytes()
      modifies this`readerIndex
      ensures Valid() && readerIndex == old(readerIndex) + length
      ensures out == old(Readable())[..length]
    {
      out := bytes[readerIndex..readerIndex + length];
      readerIndex := readerIndex + length;
    }
  }

  /**
   * One call of `decode`. The two magic bytes are peeked without moving the
   * reader index; a recognised protocol takes every readable byte with it,
   * an unknown one has every readable byte skipped.
   */
  method Decode(h: Handler, buffer: ChannelBuffer) returns (result: DecodeResult)
    requires buffer.Valid()
    modifies buffer`readerIndex
    ensures buffer.Valid() && buffer.bytes == old(buffer.bytes)
    ensures result == Sniff(h, old(buffer.Readable()))
    ensures result.Wait? ==> buffer.readerIndex == old(buffer.readerIndex)
    ensures !result.Wait? ==> buffer.readerIndex == |buffer.bytes| && buffer.Readable() == []
  {
    if buffer.ReadableBytes() < 2 {
      return Wait;
    }

    var magic1 := buffer.GetUnsignedByte(buffer.readerIndex);
    var magic2 := buffer.GetUnsignedByte(buffer.readerIndex + 1);

    var protocol;
    if IsSsl(h.detectSsl, magic1) {
      protocol := Ssl;
    } else if IsGzip(h.detectGzip, magic1, magic2) {
      protocol := Gzip;
    } else if IsHttp(magic1, magic2) {
      protocol := Http;
    } else if IsFactorial(magic1) {
      protocol := Factorial;
    } else {
      buffer.SkipBytes(buffer.ReadableBytes());
      return Reject;
    }

    var forwarded := buffer.ReadBytes(buffer.ReadableBytes());
    result := Forward(forwarded, protocol, Successor(h, protocol));
  }

  /** The four tests never hold together on the same byte pair. */
  lemma TestsExclusive(h: Handler, magic1: Byte, magic2: Byte)
    ensures !(IsSsl(h.detectSsl, magic1) && IsGzip(h.detectGzip, magic1, magic2))
    ensures !(IsSsl(h.detectSsl, magic1) && IsHttp(magic1, magic2))
    ensures !(IsSsl(h.detectSsl, magic1) && IsFactorial(magic1))
    ensures !(IsGzip(h.detectGzip, magic1, magic2) && IsHttp(magic1, magic2))
    ensures !(IsGzip(h.detectGzip, magic1, magic2) && IsFactorial(magic1))
    ensures !(IsHttp(magic1, magic2) && IsFactorial(magic1))
  {
  }

  /** `IsHttp` accepts exactly the two-letter prefixes of the nine method names. */
  lemma {:induction false} IsHttpIffMethodPrefix(magic1: Byte, magic2: Byte)
    ensures IsHttp(magic1, magic2) <==> HttpMethodPrefix(magic1, magic2)
  {
    if IsHttp(magic1, magic2) {
      var i :=
        if magic1 == 'G' as int then 0
        else if magic1 == 'P' as int && magic2 == 'O' as int then 1
        else if magic1 == 'P' as int && magic2 == 'U' as int then 2
        else if magic1 == 'H' as int then 3
        else if magic1 == 'O' as int then 4
        else if magic1 == 'P' as int then 5
        else if magic1 == 'D' as int then 6
        else if magic1 == 'T' as int then 7
        else 8;
      assert magic1 == HttpMethods[i][0] as int && magic2 == HttpMethods[i][1] as int;
    }
  }

  /**
   * The protocols chosen by a chain of sniffing handlers, starting with `h`,
   * where `prefixes[k]` is the two-byte prefix the k-th handler sees. The
   * chain stops at the first handler that installs no successor, or when the
   * prefixes run out.
   */
  function Layers(h: Handler, prefixes: seq<(Byte, Byte)>): (ps: seq<Protocol>)
    ensures |ps| <= |prefixes|
    ensures prefixes != [] ==> |ps| >= 1 && ps[0] == Classify(h.detectSsl, h.detectGzip, prefixes[0].0, prefixes[0].1)
    decreases |prefixes|
  {
    if prefixes == [] then []
    else
      var p := Classify(h.detectSsl, h.detectGzip, prefixes[0].0, prefixes[0].1);
      match Successor(h, p)
      case Some(s) => [p] + Layers(s, prefixes[1..])
      case None => [p]
  }

  /**
   * Flags only switch off along a chain: at most `Enabled(h)` layers are
   * peeled off before a final protocol is chosen, every layer but the last
   * is SSL or gzip, a disabled detection never fires, and no protocol is
   * chosen twice.
   */
  lemma {:induction false} LayersBounded(h: Handler, prefixes: seq<(Byte, Byte)>)
    ensures |Layers(h, prefixes)| <= Enabled(h) + 1
    ensures forall k :: 0 <= k < |Layers(h, prefixes)| - 1 ==> Layers(h, prefixes)[k] in {Ssl, Gzip}
    ensures !h.detectSsl ==> Ssl !in Layers(h, prefixes)
    ensures !h.detectGzip ==> Gzip !in Layers(h, prefixes)
    ensures forall i, j :: 0 <= i < j < |Layers(h, prefixes)| ==> Layers(h, prefixes)[i] != Layers(h, prefixes)[j]
    decreases |prefixes|
  {
    if prefixes != [] {
      var p := Classify(h.detectSsl, h.detectGzip, prefixes[0].0, prefixes[0].1);
      match Successor(h, p)
      case Some(s) =>
        LayersBounded(s, prefixes[1..]);
        var rest := Layers(s, prefixes[1..]);
        assert Layers(h, prefixes) == [p] + rest;
        assert p !in rest;
      case None =>
    }
  }

  /**
   * A connection accepted by the default handler is re-sniffed at most twice:
   * at most three protocols are chosen along its pipeline.
   */
  lemma DefaultHandlerAtMostTwoResniffs(prefixes: seq<(Byte, Byte)>)
    ensures |Layers(DefaultHandler, prefixes)| <= 3
    ensures |Layers(DefaultHandler, prefixes)| == 3 ==>
      Layers(DefaultHandler, prefixes)[..2] in {[Ssl, Gzip], [Gzip, Ssl]}
  {
    LayersBounded(DefaultHandler, prefixes);
    var ls := Layers(DefaultHandler, prefixes);
    if |ls| == 3 {
      assert ls[0] in {Ssl, Gzip} && ls[1] in {Ssl, Gzip} && ls[0] != ls[1];
      assert ls[..2] == [ls[0], ls[1]];
    }
  }
}
