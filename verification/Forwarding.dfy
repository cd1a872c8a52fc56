/**
 The two loops of `forwardConnection`: client packets become server messages, and
 server messages become client packets.
 */
module Forwarding {
  import opened Bytes
  import opened Packet
  import opened ServerMessage
  import opened Connection

  predicate ValidGates(ms: seq<Message>) {
    forall i :: 0 <= i < |ms| ==> ValidGate(ms[i].gate)
  }

  function EncodeMessages(ms: seq<Message>): seq<byte>
    requires ValidGates(ms)
  {
    if ms == [] then [] else EncodeMessage(ms[0]) + EncodeMessages(ms[1..])
  }

  lemma {:induction false} EncodeMessagesAppend(ms: seq<Message>, m: Message)
    requires ValidGates(ms) && ValidGate(m.gate)
    ensures EncodeMessages(ms + [m]) == EncodeMessages(ms) + EncodeMessage(m)
  {
    if ms == [] {
      assert ms + [m] == [m];
      assert EncodeMessages([m][1..]) == [];
    } else {
      EncodeMessagesAppend(ms[1..], m);
      assert (ms + [m])[1..] == ms[1..] + [m];
      assert EncodeMessage(ms[0]) + (EncodeMessages(ms[1..]) + EncodeMessage(m))
          == EncodeMessage(ms[0]) + EncodeMessages(ms[1..]) + EncodeMessage(m);
    }
  }

  function TotalData(ps: seq<ClientPacket>): nat {
    if ps == [] then 0 else TotalData(ps[..|ps| - 1]) + |ps[|ps| - 1].data|
  }

  /** The first element to come moves to the ones that were handled. */
  lemma TakeOne<T>(all: seq<T>, k: nat, x: T, more: seq<T>)
    requires k <= |all| && all[k..] == [x] + more
    ensures k < |all| && all[k + 1..] == more && all[..k + 1] == all[..k] + [x]
  {
    assert all[k] == all[k..][0];
    assert all[k + 1..] == all[k..][1..];
  }

  // ---------------------------------------------------------------------------
  // Client to backend

  /** The message written for packet `i`: trace propagation is looked up for each packet. */
  function MessageOf(p: ClientPacket, i: nat, sessionID: int64, span: TraceContext, enabled: nat -> bool): (m: Message)
    ensures ValidGate(m.gate)
  {
    MessageFor(p.messageID, sessionID, p.data, if enabled(i) then span else map[])
  }

  function MessagesOf(ps: seq<ClientPacket>, sessionID: int64, span: TraceContext, enabled: nat -> bool):
    (ms: seq<Message>)
    ensures |ms| == |ps| && ValidGates(ms)
    ensures forall i :: 0 <= i < |ms| ==> ms[i] == MessageOf(ps[i], i, sessionID, span, enabled)
  {
    if ps == [] then []
    else
      var n := |ps| - 1;
      MessagesOf(ps[..n], sessionID, span, enabled) + [MessageOf(ps[n], n, sessionID, span, enabled)]
  }

  /** All that is written to the backend for `ps`. */
  function Forwarded(ps: seq<ClientPacket>, sessionID: int64, span: TraceContext, enabled: nat -> bool): seq<byte> {
    EncodeMessages(MessagesOf(ps, sessionID, span, enabled))
  }

  lemma AppendForwarded(ps: seq<ClientPacket>, p: ClientPacket,
                        sessionID: int64, span: TraceContext, enabled: nat -> bool)
    ensures Forwarded(ps + [p], sessionID, span, enabled)
         == Forwarded(ps, sessionID, span, enabled) + EncodeMessage(MessageOf(p, |ps|, sessionID, span, enabled))
    ensures TotalData(ps + [p]) == TotalData(ps) + |p.data|
  {
    assert (ps + [p])[..|ps|] == ps;
    EncodeMessagesAppend(MessagesOf(ps, sessionID, span, enabled), MessageOf(p, |ps|, sessionID, span, enabled));
  }

  /** One iteration of the client-to-backend loop: one packet in, one message out. */
  method ForwardPacket(c: Conn, w: seq<byte>, i: nat, sessionID: int64,
                       maxSize: int, span: TraceContext, enabled: nat -> bool)
    returns (r: Result<ClientPacket>, w': seq<byte>)
    modifies c.Objects()
    ensures old(c.Packets(maxSize)) == if r.Ok? then Followed([r.value], c.Packets(maxSize)) else PacketRun([], r.error)
    ensures w' == if r.Ok? then w + EncodeMessage(MessageOf(r.value, i, sessionID, span, enabled)) else w
  {
    r := c.ReadFullPacket(maxSize);
    w' := w;
    if r.Ok? {
      var traceContext: TraceContext := if enabled(i) then span else map[];
      w' := WriteServerMessage(w, r.value.messageID, sessionID, r.value.data, traceContext);
    }
  }

  /**
   The client-to-backend loop.  `live(i)` says whether the session is still running
   before packet `i` is read.
   */
  method ForwardToBackend(c: Conn, sessionID: int64, maxSize: int,
                          span: TraceContext, enabled: nat -> bool, live: nat -> bool)
    returns (written: seq<byte>, bytesIn: nat, count: nat)
    modifies c.Objects()
    ensures var ps := old(c.Packets(maxSize)).packets;
      && count <= |ps| && (count == |ps| || !live(count))
      && written == Forwarded(ps[..count], sessionID, span, enabled)
      && bytesIn == TotalData(ps[..count])
  {
    hide Conn.Packets;
    written, bytesIn, count := [], 0, 0;
    ghost var all := c.Packets(maxSize).packets;
    ghost var more := all;
    while live(count)
      invariant count <= |all| && all[count..] == more && c.Packets(maxSize).packets == more
      invariant written == Forwarded(all[..count], sessionID, span, enabled)
      invariant bytesIn == TotalData(all[..count])
      decreases |all| - count
    {
      var packet;
      packet, written := ForwardPacket(c, written, count, sessionID, maxSize, span, enabled);
      if packet.Err? {
        return;
      }
      more := c.Packets(maxSize).packets;
      TakeOne(all, count, packet.value, more);
      AppendForwarded(all[..count], packet.value, sessionID, span, enabled);
      bytesIn := bytesIn + |packet.value.data|;
      count := count + 1;
    }
  }

  /** The bytes counted are those read from the client, without the headers. */
  lemma {:induction false} TotalDataIs(ps: seq<ClientPacket>)
    ensures TotalData(ps) + CLIENT_HEADER_SIZE * |ps| == PacketBytes(ps)
    decreases |ps|
  {
    if |ps| == 1 {
      assert ps[..0] == [] && ps[1..] == [];
    } else if |ps| > 1 {
      var n := |ps| - 1;
      TotalDataIs(ps[..n]);
      TotalDataIs(ps[1..]);
      TotalDataIs(ps[1..n]);
      assert ps[..n][1..] == ps[1..n] && ps[1..][..n - 1] == ps[1..n] && ps[1..][n - 1] == ps[n];
    }
  }

  /** The backend reads one message after the other, knowing the header mode of each. */
  function ParseMessages(s: seq<byte>, modes: seq<bool>): Taken<seq<Message>> {
    if modes == [] then Taken(Ok([]), s)
    else
      var t := ParseMessage(s, modes[0]);
      if t.r.Err? then Taken(Err(t.r.error), t.rest)
      else
        var more := ParseMessages(t.rest, modes[1..]);
        if more.r.Err? then more else Taken(Ok([t.r.value] + more.r.value), more.rest)
  }

  function ModesOf(ms: seq<Message>): (modes: seq<bool>)
    ensures |modes| == |ms| && forall i :: 0 <= i < |ms| ==> modes[i] == HasTraceContext(ms[i].gate)
  {
    if ms == [] then [] else [HasTraceContext(ms[0].gate)] + ModesOf(ms[1..])
  }

  function AsSent(ms: seq<Message>): (sent: seq<Message>)
    ensures |sent| == |ms| && forall i :: 0 <= i < |ms| ==> sent[i] == ms[i].(gate := Sent(ms[i].gate))
  {
    if ms == [] then [] else [ms[0].(gate := Sent(ms[0].gate))] + AsSent(ms[1..])
  }

  predicate AllSendable(ms: seq<Message>)
    ensures AllSendable(ms) ==> ValidGates(ms)
  {
    forall i :: 0 <= i < |ms| ==> Sendable(ms[i])
  }

  lemma EncodeMessagesSplit(ms: seq<Message>, tail: seq<byte>)
    requires ValidGates(ms)
    ensures ms == [] ==> EncodeMessages(ms) + tail == tail
    ensures ms != [] ==> EncodeMessages(ms) + tail == EncodeMessage(ms[0]) + (EncodeMessages(ms[1..]) + tail)
  {
  }

  lemma {:induction false} MessagesRoundTrip(ms: seq<Message>, tail: seq<byte>)
    requires AllSendable(ms)
    ensures ParseMessages(EncodeMessages(ms) + tail, ModesOf(ms)) == Taken(Ok(AsSent(ms)), tail)
  {
    EncodeMessagesSplit(ms, tail);
    if ms != [] {
      MessageRoundTrip(ms[0], EncodeMessages(ms[1..]) + tail);
      MessagesRoundTrip(ms[1..], tail);
      assert ModesOf(ms)[1..] == ModesOf(ms[1..]);
    }
  }

  /** The message the backend must see for a packet. */
  function Expected(p: ClientPacket, sessionID: int64, traced: bool, traceID: seq<byte>, spanID: seq<byte>): Message {
    Message(p.messageID, 0, sessionID,
            GateHeader(1, sessionID, if traced then traceID else Zeros(16), if traced then spanID else Zeros(8)),
            p.data)
  }

  lemma MessageExpected(p: ClientPacket, i: nat, sessionID: int64,
                        traceID: seq<byte>, spanID: seq<byte>, enabled: nat -> bool)
    requires |traceID| == 16 && |spanID| == 8 && Encodable(p)
    ensures var m := MessageOf(p, i, sessionID, ExtractTraceContext(traceID, spanID), enabled);
      var traced := enabled(i) && NonZero(traceID) && NonZero(spanID);
      && Sendable(m) && HasTraceContext(m.gate) == traced
      && m.(gate := Sent(m.gate)) == Expected(p, sessionID, traced, traceID, spanID)
  {
    TracePropagates(sessionID, traceID, spanID);
  }

  /**
   Read back by the backend, the forwarded stream is the client's packets: message
   ID and payload unchanged, the session's ID, and the span's trace and span IDs
   exactly on the packets for which propagation was on and the span is valid.
   */
  lemma ForwardRoundTrip(ps: seq<ClientPacket>, sessionID: int64, traceID: seq<byte>, spanID: seq<byte>,
                         enabled: nat -> bool, tail: seq<byte>)
    requires |traceID| == 16 && |spanID| == 8 && forall i :: 0 <= i < |ps| ==> Encodable(ps[i])
    ensures var span := ExtractTraceContext(traceID, spanID);
      var modes := ModesOf(MessagesOf(ps, sessionID, span, enabled));
      var t := ParseMessages(Forwarded(ps, sessionID, span, enabled) + tail, modes);
      && t.rest == tail && t.r.Ok? && |t.r.value| == |ps|
      && forall i :: 0 <= i < |ps| ==>
           && modes[i] == (enabled(i) && NonZero(traceID) && NonZero(spanID))
           && t.r.value[i] == Expected(ps[i], sessionID, modes[i], traceID, spanID)
  {
    var ms := MessagesOf(ps, sessionID, ExtractTraceContext(traceID, spanID), enabled);
    forall i | 0 <= i < |ps|
      ensures Sendable(ms[i]) && HasTraceContext(ms[i].gate) == (enabled(i) && NonZero(traceID) && NonZero(spanID))
      ensures ms[i].(gate := Sent(ms[i].gate))
           == Expected(ps[i], sessionID, HasTraceContext(ms[i].gate), traceID, spanID)
    {
      MessageExpected(ps[i], i, sessionID, traceID, spanID, enabled);
    }
    MessagesRoundTrip(ms, tail);
  }

  // ---------------------------------------------------------------------------
  // Backend to client

  /** The messages the backend-to-client loop reads: it always expects the short gate header. */
  function AllMessages(s: seq<byte>): seq<Message>
    decreases |s|
  {
    var t := ParseMessage(s, false);
    if t.r.Err? then [] else [t.r.value] + AllMessages(t.rest)
  }

  function ClientStream(ms: seq<Message>): seq<byte> {
    if ms == [] then [] else ClientStream(ms[..|ms| - 1]) + ClientMessage(ms[|ms| - 1].kind, ms[|ms| - 1].data)
  }

  function TotalPayload(ms: seq<Message>): nat {
    if ms == [] then 0 else TotalPayload(ms[..|ms| - 1]) + |ms[|ms| - 1].data|
  }

  /** The reads of one iteration: server header, short gate header, data. */
  method ReadMessage(backend: seq<byte>) returns (r: Result<Message>, rest: seq<byte>)
    ensures Taken(r, rest) == ParseMessage(backend, false)
  {
    if |backend| < SERVER_HEADER_SIZE {
      return Err(ShortRead(backend, EOF)), [];
    }
    var serverHeader := DecodeServerHeader(backend[..SERVER_HEADER_SIZE]);
    var gate := TakeFull(backend[SERVER_HEADER_SIZE..], GATE_HEADER_SIZE);
    if gate.r.Err? {
      return Err(gate.r.error), gate.rest;
    }
    var messageDataLen := serverHeader.length - GATE_HEADER_SIZE;
    if messageDataLen < 0 {
      return Err(NegativeLength), gate.rest;
    }
    var messageData: seq<byte> := [];
    rest := gate.rest;
    if messageDataLen > 0 {
      var data := TakeFull(rest, messageDataLen);
      if data.r.Err? {
        return Err(data.r.error), data.rest;
      }
      messageData, rest := data.r.value, data.rest;
    }
    r := Ok(Message(serverHeader.kind, serverHeader.serverID, serverHeader.objectID,
                    DecodeGate(gate.r.value, false), messageData));
  }

  lemma AppendStream(ms: seq<Message>, m: Message)
    ensures ClientStream(ms + [m]) == ClientStream(ms) + ClientMessage(m.kind, m.data)
    ensures TotalPayload(ms + [m]) == TotalPayload(ms) + |m.data|
  {
    assert (ms + [m])[..|ms|] == ms;
  }

  lemma MessageMoves(all: seq<Message>, k: nat, s: seq<byte>)
    requires k <= |all| && all[k..] == AllMessages(s)
    ensures var t := ParseMessage(s, false);
      if t.r.Err? then k == |all|
      else k < |all| && all[k] == t.r.value && all[k + 1..] == AllMessages(t.rest)
           && all[..k + 1] == all[..k] + [t.r.value]
  {
    var t := ParseMessage(s, false);
    if t.r.Ok? {
      assert all[k..][0] == all[k] && all[k..][1..] == all[k + 1..];
    }
  }

  /** The backend-to-client loop on what the backend connection still delivers. */
  method ForwardToClient(backend: seq<byte>, live: nat -> bool)
    returns (written: seq<byte>, bytesOut: nat, count: nat)
    ensures var ms := AllMessages(backend);
      && count <= |ms| && (count == |ms| || !live(count))
      && written == ClientStream(ms[..count]) && bytesOut == TotalPayload(ms[..count])
  {
    written, bytesOut, count := [], 0, 0;
    var rest := backend;
    ghost var all := AllMessages(backend);
    while live(count)
      invariant count <= |all| && all[count..] == AllMessages(rest)
      invariant written == ClientStream(all[..count]) && bytesOut == TotalPayload(all[..count])
      decreases |all| - count
    {
      MessageMoves(all, count, rest);
      var message;
      message, rest := ReadMessage(rest);
      if message.Err? {
        return;
      }
      var m := message.value;
      AppendStream(all[..count], m);
      bytesOut := bytesOut + |m.data|;
      written := WriteToClient(written, m);
      count := count + 1;
    }
  }

  /** The bytes counted are those written to the client, without the headers. */
  lemma {:induction false} TotalPayloadIs(ms: seq<Message>)
    ensures TotalPayload(ms) + CLIENT_HEADER_SIZE * |ms| == |ClientStream(ms)|
    decreases |ms|
  {
    if ms != [] {
      TotalPayloadIs(ms[..|ms| - 1]);
    }
  }

  /** The writes of one iteration: client header, then the data if there is any. */
  method WriteToClient(w: seq<byte>, m: Message) returns (w': seq<byte>)
    ensures w' == w + ClientMessage(m.kind, m.data)
  {
    w' := w + EncodeClientHeader(ClientHeader(|m.data| % 0x1_0000, m.kind % 0x1_0000, 0));
    if |m.data| > 0 {
      w' := w' + m.data;
    }
    assert w' == w + ClientMessage(m.kind, m.data);
  }

  /** What the loop makes of messages of either header form. */
  function AsRead(ms: seq<Message>): (read: seq<Message>)
    ensures |read| == |ms|
    ensures forall i :: 0 <= i < |ms| ==> read[i].kind == ms[i].kind && read[i].data == ShortFormData(ms[i])
  {
    if ms == [] then []
    else [Message(ms[0].kind, ms[0].serverID, ms[0].objectID,
                  GateHeader(ms[0].gate.opCode, ms[0].gate.sessionID, Zeros(16), Zeros(8)), ShortFormData(ms[0]))]
         + AsRead(ms[1..])
  }

  /**
   The loop stays aligned to message boundaries on any concatenation of messages,
   each in either header form; a long header's trace and span bytes count as data.
   */
  lemma {:induction false} BackendAlignment(ms: seq<Message>, tail: seq<byte>)
    requires AllSendable(ms)
    ensures AllMessages(EncodeMessages(ms) + tail) == AsRead(ms) + AllMessages(tail)
  {
    EncodeMessagesSplit(ms, tail);
    if ms != [] {
      var more := EncodeMessages(ms[1..]) + tail;
      ShortFormRead(ms[0], more);
      BackendAlignment(ms[1..], tail);
    }
  }

  function ClientPackets(ms: seq<Message>): (ps: seq<ClientPacket>)
    ensures |ps| == |ms|
    ensures forall i :: 0 <= i < |ms| ==> ps[i] == ClientPacket(ms[i].kind % 0x1_0000, 0, ms[i].data)
  {
    if ms == [] then [] else [ClientPacket(ms[0].kind % 0x1_0000, 0, ms[0].data)] + ClientPackets(ms[1..])
  }

  /** Without truncation a message reads back as one packet. */
  lemma ClientBytesRead(m: Message, rest: seq<byte>)
    ensures var p := ClientPacket(m.kind % 0x1_0000, 0, m.data[..|m.data| % 0x1_0000]);
      AllPackets(ClientMessage(m.kind, m.data) + rest, EOF, 0)
      == Followed([p], AllPackets(m.data[|m.data| % 0x1_0000..] + rest, EOF, 0))
  {
    var k := |m.data| % 0x1_0000;
    var p := ClientPacket(m.kind % 0x1_0000, 0, m.data[..k]);
    assert ClientMessage(m.kind, m.data) + rest == EncodePacket(p) + (m.data[k..] + rest) by {
      assert m.data == m.data[..k] + m.data[k..];
    }
    FirstPacket(p, m.data[k..] + rest, EOF, 0);
  }

  function StreamFrom(ms: seq<Message>): seq<byte> {
    if ms == [] then [] else ClientMessage(ms[0].kind, ms[0].data) + StreamFrom(ms[1..])
  }

  lemma {:induction false} StreamFromFront(ms: seq<Message>)
    ensures ClientStream(ms) == StreamFrom(ms)
  {
    if |ms| > 1 {
      var n := |ms| - 1;
      StreamFromFront(ms[..n]);
      StreamFromFront(ms[1..]);
      StreamFromFront(ms[1..n]);
      assert ms[1..][..n - 1] == ms[1..n] && ms[..n][1..] == ms[1..n];
      assert ms[1..][n - 1] == ms[n] && ms[..n][0] == ms[0];
    }
  }

  predicate ShortPayloads(ms: seq<Message>) {
    if ms == [] then true else |ms[0].data| < 0x1_0000 && ShortPayloads(ms[1..])
  }

  lemma ShortPayloadRead(m: Message, rest: seq<byte>)
    requires |m.data| < 0x1_0000
    ensures AllPackets(ClientMessage(m.kind, m.data) + rest, EOF, 0)
         == Followed([ClientPacket(m.kind % 0x1_0000, 0, m.data)], AllPackets(rest, EOF, 0))
  {
    var p := ClientPacket(m.kind % 0x1_0000, 0, m.data);
    assert ClientMessage(m.kind, m.data) == EncodePacket(p);
    FirstPacket(p, rest, EOF, 0);
  }

  predicate BaseFormat(ms: seq<Message>) {
    if ms == [] then true else !HasTraceContext(ms[0].gate) && BaseFormat(ms[1..])
  }

  /**
   A longer payload is announced too short, and a message with the long gate header is
   passed on with 24 bytes too many: either way the first packet is another one.
   */
  lemma OtherPayloadRead(m: Message, rest: seq<byte>)
    requires ValidGate(m.gate) && (HasTraceContext(m.gate) || |m.data| >= 0x1_0000)
    ensures var ps := AllPackets(ClientMessage(m.kind, ShortFormData(m)) + rest, EOF, 0).packets;
      ps != [] && ps[0].data != m.data
  {
    var read := m.(data := ShortFormData(m));
    ClientBytesRead(read, rest);
    assert |read.data[..|read.data| % 0x1_0000]| != |m.data|;
  }

  lemma {:induction false} StreamDecodes(ms: seq<Message>)
    requires ValidGates(ms)
    ensures BaseFormat(ms) && ShortPayloads(ms) <==>
            AllPackets(StreamFrom(AsRead(ms)), EOF, 0).packets == ClientPackets(ms)
  {
    hide AllPackets;
    if ms == [] {
      NoPackets();
    } else {
      var m, rest := ms[0], StreamFrom(AsRead(ms[1..]));
      assert AsRead(ms)[1..] == AsRead(ms[1..]);
      assert StreamFrom(AsRead(ms)) == ClientMessage(m.kind, ShortFormData(m)) + rest;
      if HasTraceContext(m.gate) || |m.data| >= 0x1_0000 {
        OtherPayloadRead(m, rest);
      } else {
        ShortPayloadRead(m, rest);
        StreamDecodes(ms[1..]);
        var more, want := AllPackets(rest, EOF, 0).packets, ClientPackets(ms[1..]);
        assert ([ClientPackets(ms)[0]] + more)[1..] == more && ([ClientPackets(ms)[0]] + want)[1..] == want;
      }
    }
  }

  lemma NoPackets()
    ensures AllPackets([], EOF, 0).packets == []
  {
  }

  /**
   From any backend stream, the client decodes the same payloads under the same types
   modulo 2^16 exactly when every message has the short gate header and a payload of at
   most 65535 bytes.
   */
  lemma ClientDecodes(ms: seq<Message>)
    requires AllSendable(ms)
    ensures BaseFormat(ms) && ShortPayloads(ms) <==>
            AllPackets(ClientStream(AllMessages(EncodeMessages(ms))), EOF, 0).packets == ClientPackets(ms)
  {
    hide AllPackets;
    BackendAlignment(ms, []);
    assert EncodeMessages(ms) + [] == EncodeMessages(ms);
    assert AsRead(ms) + AllMessages([]) == AsRead(ms);
    StreamFromFront(AsRead(ms));
    StreamDecodes(ms);
  }
}
