/**
 Client connections as `ReadFullPacket` sees them: a TCP connection that delivers
 its bytes in arbitrary segments, or a `WebSocketConn`.
 */
module Connection {
  import opened Bytes
  import opened WebSocketFrame
  import opened WebSocketConnection
  import opened Packet

  function Flatten(segments: seq<seq<byte>>): seq<byte> {
    if segments == [] then [] else segments[0] + Flatten(segments[1..])
  }

  /** A TCP connection: what the network still delivers, cut into segments. */
  class TcpConn {
    var segments: seq<seq<byte>>

    constructor (segments: seq<seq<byte>>)
      ensures this.segments == segments
    {
      this.segments := segments;
    }

    method Read(n: nat) returns (r: Result<seq<byte>>)
      modifies this
      ensures r.Ok? ==> |r.value| <= n && (n > 0 ==> r.value != [])
      ensures r.Ok? ==> r.value + Flatten(segments) == old(Flatten(segments))
      ensures r.Err? <==> old(Flatten(segments)) == []
      ensures r.Err? ==> r.error == EOF
    {
      while segments != [] && segments[0] == []
        invariant Flatten(segments) == old(Flatten(segments))
        decreases |segments|
      {
        segments := segments[1..];
      }
      if segments == [] {
        return Err(EOF);
      }
      var head, tail := segments[0], segments[1..];
      var k := if n <= |head| then n else |head|;
      segments := [head[k..]] + tail;
      assert segments[1..] == tail;
      assert head == head[..k] + head[k..];
      r := Ok(head[..k]);
    }
  }

  datatype Conn = Tcp(tcp: TcpConn) | WebSocket(ws: WebSocketConn) {

    ghost function Objects(): set<object> {
      match this case Tcp(t) => {t} case WebSocket(w) => {w}
    }

    /** The bytes this connection still delivers. */
    ghost function Rest(): seq<byte>
      reads Objects()
    {
      match this case Tcp(t) => Flatten(t.segments) case WebSocket(w) => w.Future().bytes
    }

    /** The error it then fails with. */
    ghost function End(): Error
      reads Objects()
    {
      match this case Tcp(t) => EOF case WebSocket(w) => w.Future().end
    }

    method Read(n: nat) returns (r: Result<seq<byte>>)
      modifies Objects()
      ensures r.Ok? ==> |r.value| <= n && (n > 0 ==> r.value != [])
      ensures r.Ok? ==> r.value + Rest() == old(Rest()) && End() == old(End())
      ensures r.Err? <==> old(Rest()) == []
      ensures r.Err? ==> r.error == old(End())
    {
      match this
      case Tcp(t) => r := t.Read(n);
      case WebSocket(w) => r := w.Read(n);
    }

    /** `io.ReadFull`. */
    method ReadFull(n: nat) returns (r: Result<seq<byte>>)
      modifies Objects()
      ensures r.Ok? <==> n <= |old(Rest())|
      ensures r.Ok? ==> |r.value| == n && r.value + Rest() == old(Rest()) && End() == old(End())
      ensures r.Err? ==> r.error == ShortRead(old(Rest()), old(End()))
    {
      hide Conn.Rest, Conn.End;
      var buf: seq<byte> := [];
      while |buf| < n
        invariant |buf| <= n
        invariant buf + Rest() == old(Rest()) && End() == old(End())
      {
        var chunk := Read(n - |buf|);
        if chunk.Err? {
          return Err(if |buf| > 0 && chunk.error == EOF then UnexpectedEOF else chunk.error);
        }
        buf := buf + chunk.value;
      }
      r := Ok(buf);
    }

    /** All packets still to be read from this connection. */
    ghost function Packets(maxSize: int): PacketRun
      reads Objects()
    {
      AllPackets(Rest(), End(), maxSize)
    }

    method ReadFullPacket(maxSize: int) returns (r: Result<ClientPacket>)
      modifies Objects()
      ensures old(Packets(maxSize)) ==
              if r.Ok? then Followed([r.value], Packets(maxSize)) else PacketRun([], r.error)
    {
      ghost var s, end := Rest(), End();
      var headerBuf := ReadFull(CLIENT_HEADER_SIZE);
      if headerBuf.Err? {
        return Err(headerBuf.error);
      }
      var header := DecodeClientHeader(headerBuf.value);
      assert s[..CLIENT_HEADER_SIZE] == headerBuf.value && s[CLIENT_HEADER_SIZE..] == Rest();
      if maxSize > 0 && header.length > maxSize {
        return Err(MessageTooLarge);
      }
      if header.length == 0 {
        return Ok(ClientPacket(header.messageID, header.serverID, []));
      }
      ghost var body := Rest();
      var data := ReadFull(header.length);
      if data.Err? {
        return Err(data.error);
      }
      assert body[..header.length] == data.value && body[header.length..] == Rest();
      r := Ok(ClientPacket(header.messageID, header.serverID, data.value));
    }
  }

  // ---------------------------------------------------------------------------
  // Segmentation

  /** All packets read from a WebSocket client that sends these frames and nothing more. */
  function OverWebSocket(frames: seq<Frame>, wires: seq<Wire>, maxPayload: int, maxSize: int): PacketRun
    requires ValidWires(frames, wires)
  {
    var d := Deliver(EncodeAll(frames, wires), [], maxPayload);
    AllPackets(d.bytes, d.end, maxSize)
  }

  /**
   The raw stream ends in a packet over the limit, and the bytes `d` delivers reach
   through that packet's header, or up to it with the same error.
   */
  predicate SameRefusal(raw: PacketRun, d: Delivery) {
    var n := PacketBytes(raw.packets);
    && raw.end == MessageTooLarge
    && (|d.bytes| >= n + CLIENT_HEADER_SIZE || (|d.bytes| >= n && d.end == MessageTooLarge))
  }

  lemma {:induction false} DataPrefix(frames: seq<Frame>, n: nat)
    requires n <= |frames|
    ensures DataBytes(frames[..n]) <= DataBytes(frames)
    decreases n
  {
    if n > 0 {
      DataPrefix(frames[1..], n - 1);
      assert frames[..n][1..] == frames[1..][..n - 1];
    }
  }

  /** A client whose frames are not all taken gets a prefix of its data delivered, and one of two errors. */
  lemma {:induction false} DeliversPrefix(frames: seq<Frame>, wires: seq<Wire>, maxPayload: int)
    requires ValidWires(frames, wires) && Conforming(frames, false) && !Accepted(frames, maxPayload)
    ensures var d := Deliver(EncodeAll(frames, wires), [], maxPayload);
      d.bytes <= DataBytes(frames) && (d.end == UnsupportedFrame || d.end == MessageTooLarge)
  {
    hide Deliver, DataBytes, Boundary, Pongs, Accepted, FirstOffence;
    StreamReassembly(frames, wires, [], maxPayload);
    assert EncodeAll(frames, wires) + [] == EncodeAll(frames, wires);
    var k := FirstOffence(frames, false, maxPayload);
    var n := Boundary(frames[..k]);
    assert frames[..k][..n] == frames[..n];
    DataPrefix(frames, n);
    assert [] + DataBytes(frames[..n]) == DataBytes(frames[..n]);
  }

  /**
   Segmentation independence.  However a conforming client cuts its data into WebSocket
   messages, fragments and frames, with pings and pongs in between and any masks: the
   packets, and the error after them, are those of the raw bytes exactly if no first
   fragment is empty and no frame is over the limit - or if the raw bytes end in the
   same refusal of a packet over the limit.
   */
  lemma {:induction false} SegmentationIndependence(frames: seq<Frame>, wires: seq<Wire>, maxPayload: int, maxSize: int)
    requires ValidWires(frames, wires) && Conforming(frames, false)
    ensures var raw := AllPackets(DataBytes(frames), EOF, maxSize);
      OverWebSocket(frames, wires, maxPayload, maxSize) == raw <==>
      Accepted(frames, maxPayload) || SameRefusal(raw, Deliver(EncodeAll(frames, wires), [], maxPayload))
  {
    hide Deliver, AllPackets, Accepted, DataBytes, Conforming, EncodeAll, PacketBytes;
    var s, d := DataBytes(frames), Deliver(EncodeAll(frames, wires), [], maxPayload);
    CleanEnd(frames, wires, maxPayload);
    if !Accepted(frames, maxPayload) {
      DeliversPrefix(frames, wires, maxPayload);
      assert d.bytes == s[..|d.bytes|];
      PrefixRun(s, |d.bytes|, d.end, maxSize);
      RunEnd(d.bytes, d.end, maxSize);
      RunEnd(s, EOF, maxSize);
    }
  }

  /** A stream of packets within the limit is read over WebSocket exactly if the client's frames are all taken. */
  lemma {:induction false} PacketsOverWebSocket(packets: seq<ClientPacket>, frames: seq<Frame>, wires: seq<Wire>,
                                                maxPayload: int, maxSize: int)
    requires AllFit(packets, maxSize) && DataBytes(frames) == EncodePackets(packets)
    requires ValidWires(frames, wires) && Conforming(frames, false)
    ensures OverWebSocket(frames, wires, maxPayload, maxSize) == PacketRun(packets, EOF)
       <==> Accepted(frames, maxPayload)
  {
    hide Accepted, DataBytes, Conforming, EncodeAll, OverWebSocket, PacketBytes;
    SegmentationIndependence(frames, wires, maxPayload, maxSize);
    StreamRoundTrip(packets, [], EOF, maxSize);
    assert EncodePackets(packets) + [] == EncodePackets(packets);
    assert AllPackets([], EOF, maxSize) == PacketRun([], EOF);
    assert packets + [] == packets;
  }

  /**
   The gateway has one limit for frames and packets.  A packet sent as one message is
   then refused over WebSocket when its data is within 8 bytes of the limit, although it
   is read over TCP.
   */
  lemma {:induction false} OneMessagePerPacket(p: ClientPacket, w: Wire, maxSize: int)
    requires Encodable(p) && ValidWire(w, Frame(true, BINARY, EncodePacket(p)))
    ensures AllPackets(EncodePacket(p), EOF, maxSize) ==
      if maxSize > 0 && |p.data| > maxSize then PacketRun([], MessageTooLarge) else PacketRun([p], EOF)
    ensures OverWebSocket([Frame(true, BINARY, EncodePacket(p))], [w], maxSize, maxSize) ==
      if maxSize > 0 && |p.data| > maxSize - CLIENT_HEADER_SIZE then PacketRun([], MessageTooLarge)
      else PacketRun([p], EOF)
  {
    var s := EncodePacket(p);
    PacketRoundTrip(p, [], EOF, maxSize);
    assert s + [] == s;
    assert AllPackets([], EOF, maxSize) == PacketRun([], EOF);
    var f := Frame(true, BINARY, s);
    ReadInvertsClient(f, w, [], maxSize);
    assert EncodeAll([f], [w]) == EncodeClient(f, w) + [];
    assert Deliver([], [], maxSize) == Delivery([], [], EOF);
  }
}
