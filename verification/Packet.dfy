/**
 The client packet format (8-byte little-endian header, then data) and the server
 message format (20-byte server header, 9- or 33-byte gate header, then data).
 */
module Packet {
  import opened Bytes

  // ---------------------------------------------------------------------------
  // Client packets

  const CLIENT_HEADER_SIZE := 8

  datatype ClientHeader = ClientHeader(length: uint16, messageID: uint16, serverID: uint32)

  /** A client packet; its header's length is the length of its data. */
  datatype ClientPacket = ClientPacket(messageID: uint16, serverID: uint32, data: seq<byte>)

  /** `WriteClientMessageHeader`. */
  function EncodeClientHeader(h: ClientHeader): (s: seq<byte>)
    ensures |s| == CLIENT_HEADER_SIZE
  {
    LittleEndian(2, h.length) + LittleEndian(2, h.messageID) + LittleEndian(4, h.serverID)
  }

  /** `ParseClientMessageHeader` on the bytes it has read. */
  function DecodeClientHeader(s: seq<byte>): ClientHeader
    requires |s| == CLIENT_HEADER_SIZE
  {
    Widths();
    LittleEndianBound(s[0..2]);
    LittleEndianBound(s[2..4]);
    LittleEndianBound(s[4..8]);
    ClientHeader(FromLittleEndian(s[0..2]), FromLittleEndian(s[2..4]), FromLittleEndian(s[4..8]))
  }

  lemma ClientHeaderRoundTrip(h: ClientHeader)
    ensures DecodeClientHeader(EncodeClientHeader(h)) == h
  {
    Widths();
    LittleEndianRoundTrip(2, h.length);
    LittleEndianRoundTrip(2, h.messageID);
    LittleEndianRoundTrip(4, h.serverID);
    var s := EncodeClientHeader(h);
    assert s[0..2] == LittleEndian(2, h.length);
    assert s[2..4] == LittleEndian(2, h.messageID);
    assert s[4..8] == LittleEndian(4, h.serverID);
  }

  /** The header byte by byte: length, message ID and server ID, each least significant byte first. */
  lemma ClientHeaderBytes(h: ClientHeader)
    ensures EncodeClientHeader(h) == [
      h.length % 256, h.length / 256, h.messageID % 256, h.messageID / 256,
      h.serverID % 256, h.serverID / 256 % 256, h.serverID / 0x1_0000 % 256, h.serverID / 0x100_0000]
  {
    hide LittleEndian;
    LittleEndianSmall(h.length);
    LittleEndianSmall(h.messageID);
    LittleEndianSmall(h.serverID);
  }

  /** The routing fields of a server ID; together they are the whole of it. */
  function ExtractServerIDInfo(serverID: uint32): (r: (bool, nat, nat, nat))
    ensures r.1 < 0x8000 && r.2 < 0x100 && r.3 < 0x100
    ensures serverID == (if r.0 then 0x8000_0000 else 0) + r.1 * 0x1_0000 + r.2 * 0x100 + r.3
  {
    var high, low := serverID / 0x1_0000, serverID % 0x1_0000;
    assert serverID / 0x100 == 0x100 * high + low / 0x100;
    assert serverID / 0x100 % 0x100 == low / 0x100 && serverID % 0x100 == low % 0x100;
    assert high == (if serverID >= 0x8000_0000 then 0x8000 else 0) + high % 0x8000;
    (serverID >= 0x8000_0000, serverID / 0x1_0000 % 0x8000, serverID / 0x100 % 0x100, serverID % 0x100)
  }

  /** How a backend's message is written to the client; its length and its type are cut to 16 bits. */
  function ClientMessage(kind: int32, payload: seq<byte>): seq<byte> {
    EncodeClientHeader(ClientHeader(|payload| % 0x1_0000, kind % 0x1_0000, 0)) + payload
  }

  predicate Encodable(p: ClientPacket) {
    |p.data| < 0x1_0000
  }

  function EncodePacket(p: ClientPacket): seq<byte>
    requires Encodable(p)
  {
    EncodeClientHeader(ClientHeader(|p.data|, p.messageID, p.serverID)) + p.data
  }

  function EncodePackets(ps: seq<ClientPacket>): seq<byte>
    requires forall i :: 0 <= i < |ps| ==> Encodable(ps[i])
  {
    if ps == [] then [] else EncodePacket(ps[0]) + EncodePackets(ps[1..])
  }

  /** The error of `io.ReadFull` when only `got` could be read before the reader failed with `end`. */
  function ShortRead(got: seq<byte>, end: Error): Error {
    if got != [] && end == EOF then UnexpectedEOF else end
  }

  /** `ReadFullPacket` on a reader that delivers `s` and then fails with `end`. */
  function ParsePacket(s: seq<byte>, end: Error, maxSize: int): (t: Taken<ClientPacket>)
    ensures t.r.Ok? ==> |t.rest| < |s| && Encodable(t.r.value) && (maxSize > 0 ==> |t.r.value.data| <= maxSize)
  {
    if |s| < CLIENT_HEADER_SIZE then Taken(Err(ShortRead(s, end)), [])
    else
      var h := DecodeClientHeader(s[..CLIENT_HEADER_SIZE]);
      var body := s[CLIENT_HEADER_SIZE..];
      if maxSize > 0 && h.length > maxSize then Taken(Err(MessageTooLarge), body)
      else if |body| < h.length then Taken(Err(ShortRead(body, end)), [])
      else Taken(Ok(ClientPacket(h.messageID, h.serverID, body[..h.length])), body[h.length..])
  }

  /** `ReadFullPacket` inverts the encoding and consumes exactly that packet; over the limit it refuses. */
  lemma PacketRoundTrip(p: ClientPacket, rest: seq<byte>, end: Error, maxSize: int)
    requires Encodable(p)
    ensures ParsePacket(EncodePacket(p) + rest, end, maxSize) ==
            if maxSize > 0 && |p.data| > maxSize then Taken(Err(MessageTooLarge), p.data + rest)
            else Taken(Ok(p), rest)
  {
    var h := ClientHeader(|p.data|, p.messageID, p.serverID);
    var s := EncodePacket(p) + rest;
    ClientHeaderRoundTrip(h);
    assert s[..CLIENT_HEADER_SIZE] == EncodeClientHeader(h);
    assert s[CLIENT_HEADER_SIZE..] == p.data + rest;
    assert (p.data + rest)[..|p.data|] == p.data && (p.data + rest)[|p.data|..] == rest;
  }

  /**
   A packet that breaks off after `n` bytes: what the reader fails with, but an end of
   file is an unexpected one unless it comes before the header or right after it.
   */
  lemma PacketBreaksOff(p: ClientPacket, n: nat, end: Error, maxSize: int)
    requires Encodable(p) && n < |EncodePacket(p)| && !(maxSize > 0 && |p.data| > maxSize)
    ensures ParsePacket(EncodePacket(p)[..n], end, maxSize).r ==
      Err(if end == EOF && n != 0 && n != CLIENT_HEADER_SIZE then UnexpectedEOF else end)
  {
    hide EncodeClientHeader, DecodeClientHeader;
    var h, s := ClientHeader(|p.data|, p.messageID, p.serverID), EncodePacket(p)[..n];
    ClientHeaderRoundTrip(h);
    if n >= CLIENT_HEADER_SIZE {
      assert s[..CLIENT_HEADER_SIZE] == EncodeClientHeader(h);
    }
  }

  /** All packets a reader yields, and the error that ends it. */
  datatype PacketRun = PacketRun(packets: seq<ClientPacket>, end: Error)

  function AllPackets(s: seq<byte>, end: Error, maxSize: int): PacketRun
    decreases |s|
  {
    var t := ParsePacket(s, end, maxSize);
    if t.r.Err? then PacketRun([], t.r.error)
    else
      var more := AllPackets(t.rest, end, maxSize);
      PacketRun([t.r.value] + more.packets, more.end)
  }

  predicate AllFit(ps: seq<ClientPacket>, maxSize: int) {
    forall i :: 0 <= i < |ps| ==> Encodable(ps[i]) && (maxSize > 0 ==> |ps[i].data| <= maxSize)
  }

  function Followed(ps: seq<ClientPacket>, run: PacketRun): PacketRun {
    PacketRun(ps + run.packets, run.end)
  }

  lemma FirstPacket(p: ClientPacket, rest: seq<byte>, end: Error, maxSize: int)
    requires AllFit([p], maxSize)
    ensures Encodable(p)
    ensures AllPackets(EncodePacket(p) + rest, end, maxSize) == Followed([p], AllPackets(rest, end, maxSize))
  {
    assert [p][0] == p;
    PacketRoundTrip(p, rest, end, maxSize);
  }

  lemma EncodeSplit(ps: seq<ClientPacket>, tail: seq<byte>)
    requires forall i :: 0 <= i < |ps| ==> Encodable(ps[i])
    ensures ps == [] ==> EncodePackets(ps) + tail == tail
    ensures ps != [] ==> EncodePackets(ps) + tail == EncodePacket(ps[0]) + (EncodePackets(ps[1..]) + tail)
  {
  }

  lemma FollowedTwice(p: ClientPacket, ps: seq<ClientPacket>, run: PacketRun)
    ensures Followed([p], Followed(ps, run)) == Followed([p] + ps, run)
    ensures Followed([], run) == run
  {
    assert [p] + (ps + run.packets) == [p] + ps + run.packets;
  }

  /** A stream of packets within the limit is read back packet by packet. */
  lemma {:induction false} StreamRoundTrip(ps: seq<ClientPacket>, tail: seq<byte>, end: Error, maxSize: int)
    requires AllFit(ps, maxSize)
    ensures AllPackets(EncodePackets(ps) + tail, end, maxSize) == Followed(ps, AllPackets(tail, end, maxSize))
  {
    hide AllPackets, EncodePackets;
    EncodeSplit(ps, tail);
    if ps != [] {
      FirstPacket(ps[0], EncodePackets(ps[1..]) + tail, end, maxSize);
      StreamRoundTrip(ps[1..], tail, end, maxSize);
      FollowedTwice(ps[0], ps[1..], AllPackets(tail, end, maxSize));
      assert ps == [ps[0]] + ps[1..];
    } else {
      assert ps + AllPackets(tail, end, maxSize).packets == AllPackets(tail, end, maxSize).packets;
    }
  }

  // ---------------------------------------------------------------------------
  // A stream that breaks off

  /** The bytes that packets take on the wire. */
  function PacketBytes(ps: seq<ClientPacket>): nat {
    if ps == [] then 0 else CLIENT_HEADER_SIZE + |ps[0].data| + PacketBytes(ps[1..])
  }

  lemma {:induction false} PacketBytesEncoded(ps: seq<ClientPacket>)
    requires forall i :: 0 <= i < |ps| ==> Encodable(ps[i])
    ensures PacketBytes(ps) == |EncodePackets(ps)|
  {
    if ps != [] {
      PacketBytesEncoded(ps[1..]);
    }
  }

  /** One packet of a stream of which only the first `b` bytes arrive before it fails with `end`. */
  lemma PrefixPacket(s: seq<byte>, b: nat, end: Error, maxSize: int)
    requires b <= |s|
    ensures var t, t' := ParsePacket(s, EOF, maxSize), ParsePacket(s[..b], end, maxSize);
      && (t.r.Ok? ==>
          var used := CLIENT_HEADER_SIZE + |t.r.value.data|;
          && used <= |s| && t.rest == s[used..]
          && (if b < used then t'.r.Err? else t'.r == t.r && t'.rest == t.rest[..b - used]))
      && (t.r == Err(MessageTooLarge) ==>
          t'.r == Err(if b < CLIENT_HEADER_SIZE then ShortRead(s[..b], end) else MessageTooLarge))
  {
    hide DecodeClientHeader;
    if b >= CLIENT_HEADER_SIZE {
      assert s[..b][..CLIENT_HEADER_SIZE] == s[..CLIENT_HEADER_SIZE];
      var body, m := s[CLIENT_HEADER_SIZE..], b - CLIENT_HEADER_SIZE;
      assert s[..b][CLIENT_HEADER_SIZE..] == body[..m];
      var n := DecodeClientHeader(s[..CLIENT_HEADER_SIZE]).length;
      assert n <= m ==> body[..m][..n] == body[..n] && body[..m][n..] == body[n..][..m - n];
    }
  }

  /**
   Such a stream yields fewer packets if it breaks off before the last one ends; if the
   whole stream ends in a packet over the limit, the rest of it matters up to that
   packet's header.
   */
  lemma {:induction false} PrefixRun(s: seq<byte>, b: nat, end: Error, maxSize: int)
    requires b <= |s|
    ensures var raw, run := AllPackets(s, EOF, maxSize), AllPackets(s[..b], end, maxSize);
      var n := PacketBytes(raw.packets);
      && n <= |s| && (b < n ==> |run.packets| < |raw.packets|)
      && (b >= n && raw.end == MessageTooLarge ==>
          run == PacketRun(raw.packets,
            if b < n + CLIENT_HEADER_SIZE then ShortRead(s[n..b], end) else MessageTooLarge))
    decreases |s|
  {
    hide ParsePacket;
    PrefixPacket(s, b, end, maxSize);
    var t := ParsePacket(s, EOF, maxSize);
    if t.r.Ok? {
      var used := CLIENT_HEADER_SIZE + |t.r.value.data|;
      assert AllPackets(s, EOF, maxSize).packets[1..] == AllPackets(t.rest, EOF, maxSize).packets;
      if b >= used {
        PrefixRun(t.rest, b - used, end, maxSize);
        var n := PacketBytes(AllPackets(t.rest, EOF, maxSize).packets);
        assert n + used <= b ==> t.rest[n..b - used] == s[n + used..b];
      } else {
        PrefixRun(t.rest, 0, end, maxSize);
      }
    }
  }

  /** How a run can end. */
  lemma {:induction false} RunEnd(s: seq<byte>, end: Error, maxSize: int)
    ensures var e := AllPackets(s, end, maxSize).end;
      e == end || e == MessageTooLarge || (end == EOF && e == UnexpectedEOF)
    decreases |s|
  {
    var t := ParsePacket(s, end, maxSize);
    if t.r.Ok? {
      RunEnd(t.rest, end, maxSize);
    }
  }

  // ---------------------------------------------------------------------------
  // Server messages

  const SERVER_HEADER_SIZE := 20
  const GATE_HEADER_SIZE := 9
  const GATE_HEADER_EXTENDED_SIZE := 33

  datatype ServerHeader = ServerHeader(length: int32, kind: int32, serverID: uint32, objectID: int64)

  /** A gate header; 16 trace bytes and 8 span bytes. */
  datatype GateHeader = GateHeader(opCode: byte, sessionID: int64, traceID: seq<byte>, spanID: seq<byte>)

  function Zeros(n: nat): (s: seq<byte>)
    ensures |s| == n
  {
    seq(n, i => 0)
  }

  predicate ValidGate(h: GateHeader) {
    |h.traceID| == 16 && |h.spanID| == 8
  }

  predicate HasTraceContext(h: GateHeader) {
    exists i :: 0 <= i < |h.traceID| && h.traceID[i] != 0
  }

  /** `WriteServerMessageHeader`. */
  function EncodeServerHeader(h: ServerHeader): (s: seq<byte>)
    ensures |s| == SERVER_HEADER_SIZE
  {
    LittleEndian(4, h.length % TWO_32) + LittleEndian(4, h.kind % TWO_32)
    + LittleEndian(4, h.serverID) + LittleEndian(8, h.objectID % TWO_64)
  }

  /** `ReadServerMessageHeader` on the bytes it has read. */
  function DecodeServerHeader(s: seq<byte>): ServerHeader
    requires |s| == SERVER_HEADER_SIZE
  {
    Widths();
    LittleEndianBound(s[8..12]);
    ServerHeader(Int32(FromLittleEndian(s[0..4])), Int32(FromLittleEndian(s[4..8])),
                 FromLittleEndian(s[8..12]), Int64(FromLittleEndian(s[12..20])))
  }

  lemma ServerHeaderFields(h: ServerHeader)
    ensures var s := EncodeServerHeader(h);
      && s[0..4] == LittleEndian(4, h.length % TWO_32)
      && s[4..8] == LittleEndian(4, h.kind % TWO_32)
      && s[8..12] == LittleEndian(4, h.serverID)
      && s[12..20] == LittleEndian(8, h.objectID % TWO_64)
  {
    var a, b := LittleEndian(4, h.length % TWO_32), LittleEndian(4, h.kind % TWO_32);
    var c, d := LittleEndian(4, h.serverID), LittleEndian(8, h.objectID % TWO_64);
    assert EncodeServerHeader(h) == a + b + c + d;
    assert (a + b + c + d)[0..4] == a && (a + b + c + d)[4..8] == b;
    assert (a + b + c + d)[8..12] == c && (a + b + c + d)[12..20] == d;
  }

  lemma ServerHeaderRoundTrip(h: ServerHeader)
    ensures DecodeServerHeader(EncodeServerHeader(h)) == h
  {
    ServerHeaderFields(h);
    Widths();
    LittleEndianRoundTrip(4, h.length % TWO_32);
    LittleEndianRoundTrip(4, h.kind % TWO_32);
    LittleEndianRoundTrip(4, h.serverID);
    LittleEndianRoundTrip(8, h.objectID % TWO_64);
    Int32Inverse(h.length);
    Int32Inverse(h.kind);
    Int64Inverse(h.objectID);
  }

  /** The header byte by byte: each field least significant byte first, negative ones in two's complement. */
  lemma ServerHeaderBytes(h: ServerHeader, i: nat)
    ensures var s := EncodeServerHeader(h);
      && (i < 4 ==> s[i] == h.length % TWO_32 / Pow256(i) % 256)
      && (i < 4 ==> s[4 + i] == h.kind % TWO_32 / Pow256(i) % 256)
      && (i < 4 ==> s[8 + i] == h.serverID / Pow256(i) % 256)
      && (i < 8 ==> s[12 + i] == h.objectID % TWO_64 / Pow256(i) % 256)
  {
    hide LittleEndian, Pow256;
    if i < 4 {
      LittleEndianAt(4, h.length % TWO_32, i);
      LittleEndianAt(4, h.kind % TWO_32, i);
      LittleEndianAt(4, h.serverID, i);
    }
    if i < 8 {
      LittleEndianAt(8, h.objectID % TWO_64, i);
    }
  }

  function GateSize(extended: bool): nat {
    if extended then GATE_HEADER_EXTENDED_SIZE else GATE_HEADER_SIZE
  }

  /** `WriteGateMsgHeader`: the long form exactly when the trace ID is not all zeros. */
  function EncodeGate(h: GateHeader): (s: seq<byte>)
    requires ValidGate(h)
    ensures |s| == GateSize(HasTraceContext(h))
  {
    [h.opCode] + LittleEndian(8, h.sessionID % TWO_64) + (if HasTraceContext(h) then h.traceID + h.spanID else [])
  }

  /** `ReadGateMsgHeader` and `ReadGateMsgHeaderExtended` on the bytes they have read. */
  function DecodeGate(s: seq<byte>, extended: bool): (h: GateHeader)
    requires |s| == GateSize(extended)
    ensures ValidGate(h)
  {
    if extended then GateHeader(s[0], Int64(FromLittleEndian(s[1..9])), s[9..25], s[25..33])
    else GateHeader(s[0], Int64(FromLittleEndian(s[1..9])), Zeros(16), Zeros(8))
  }

  /** The header byte by byte; trace and span follow exactly if the trace ID is not all zeros. */
  lemma GateBytes(h: GateHeader, i: nat)
    requires ValidGate(h)
    ensures var s := EncodeGate(h);
      && s[0] == h.opCode && (i < 8 ==> s[1 + i] == h.sessionID % TWO_64 / Pow256(i) % 256)
      && (if h.traceID == Zeros(16) then |s| == 9 else |s| == 33 && s[9..25] == h.traceID && s[25..33] == h.spanID)
  {
    hide LittleEndian, Pow256;
    assert HasTraceContext(h) <==> h.traceID != Zeros(16) by {
      if !HasTraceContext(h) {
        assert h.traceID == Zeros(16);
      }
    }
    if i < 8 {
      LittleEndianAt(8, h.sessionID % TWO_64, i);
    }
  }

  /** What a gate header becomes on the wire: without a trace ID the span ID is not sent. */
  function Sent(h: GateHeader): GateHeader {
    if HasTraceContext(h) then h else h.(traceID := Zeros(16), spanID := Zeros(8))
  }

  /** Read in the mode it was written in, a gate header comes back. */
  lemma GateRoundTrip(h: GateHeader)
    requires ValidGate(h)
    ensures DecodeGate(EncodeGate(h), HasTraceContext(h)) == Sent(h)
  {
    hide LittleEndian, FromLittleEndian, Pow256;
    Widths();
    LittleEndianRoundTrip(8, h.sessionID % TWO_64);
    Int64Inverse(h.sessionID);
    var s := EncodeGate(h);
    assert s[1..9] == LittleEndian(8, h.sessionID % TWO_64);
    if HasTraceContext(h) {
      assert s[9..25] == h.traceID && s[25..33] == h.spanID;
    }
  }
}
