/**
 A client session in gRPC mode: what `handleTCPConnection` and
 `forwardGrpcConnection` hand to `Manager.Send`, and what `sendToSession` writes to
 the client.
 */
module GrpcSession {
  import opened Bytes
  import opened Packet
  import opened WebSocketFrame
  import opened WebSocketConnection
  import opened Connection
  import opened Forwarding

  /** The `packet_type` in the metadata; data packets have none. */
  datatype Kind = Connect | Data | Disconnect

  datatype GamePacket = GamePacket(kind: Kind, sessionID: int64, msgID: int32, payload: seq<byte>)

  function DataPacket(sessionID: int64, p: ClientPacket): GamePacket {
    GamePacket(Data, sessionID, p.messageID, p.data)
  }

  /** The client's packets as they are handed to `Send`, in order. */
  function DataPackets(sessionID: int64, ps: seq<ClientPacket>): (gs: seq<GamePacket>)
    ensures |gs| == |ps| && forall i :: 0 <= i < |ps| ==> gs[i] == DataPacket(sessionID, ps[i])
  {
    if ps == [] then [] else DataPackets(sessionID, ps[..|ps| - 1]) + [DataPacket(sessionID, ps[|ps| - 1])]
  }

  /** One connect, the first `k` packets of the client, one disconnect; a failed send of data is the last one. */
  ghost predicate FullTrace(sent: seq<GamePacket>, sessionID: int64, ps: seq<ClientPacket>, ok: nat -> bool, k: nat) {
    && 1 <= k <= |ps|
    && sent == [GamePacket(Connect, sessionID, 0, [])] + DataPackets(sessionID, ps[..k])
               + [GamePacket(Disconnect, sessionID, 0, [])]
    && (forall i :: 0 < i < k ==> ok(i))
    && (k < |ps| ==> !ok(k))
  }

  /**
   What one session may hand to `Send` when the client sends `ps` and call `i` of
   `Send` succeeds as `ok(i)` says: nothing, when no first packet arrives or no backend
   is found; one connect that failed; or a full trace.
   */
  ghost predicate SessionTrace(sent: seq<GamePacket>, sessionID: int64, ps: seq<ClientPacket>, routed: bool,
                               ok: nat -> bool, k: nat)
  {
    if ps == [] || !routed then sent == []
    else if !ok(0) then sent == [GamePacket(Connect, sessionID, 0, [])]
    else FullTrace(sent, sessionID, ps, ok, k)
  }

  lemma DataPacketsAppend(sessionID: int64, ps: seq<ClientPacket>, p: ClientPacket)
    ensures DataPackets(sessionID, ps + [p]) == DataPackets(sessionID, ps) + [DataPacket(sessionID, p)]
  {
    assert (ps + [p])[..|ps|] == ps;
  }

  /** How many of `ps` are handed to `Send` when the first of them is call `n`: a failed one is the last. */
  function Handed(ps: seq<ClientPacket>, ok: nat -> bool, n: nat): nat {
    if ps == [] then 0 else if ok(n) then 1 + Handed(ps[1..], ok, n + 1) else 1
  }

  lemma {:induction false} HandedMeaning(ps: seq<ClientPacket>, ok: nat -> bool, n: nat)
    ensures var k := Handed(ps, ok, n);
      && k <= |ps| && (ps != [] ==> k >= 1) && (k < |ps| ==> !ok(n + k - 1))
      && (forall i :: n <= i < n + k - 1 ==> ok(i))
  {
    if ps != [] && ok(n) {
      HandedMeaning(ps[1..], ok, n + 1);
    }
  }

  /** The data of the packets whose send succeeded. */
  function SentData(ps: seq<ClientPacket>, ok: nat -> bool, n: nat): nat {
    if ps == [] || !ok(n) then 0 else |ps[0].data| + SentData(ps[1..], ok, n + 1)
  }

  /** How many of the packets handed to `Send` it took. */
  function SentCount(ps: seq<ClientPacket>, ok: nat -> bool, n: nat): nat {
    var k := Handed(ps, ok, n);
    if k > 0 && !ok(n + k - 1) then k - 1 else k
  }

  /** The bytes counted are those of the packets that `Send` took, without their headers. */
  lemma {:induction false} SentDataIs(ps: seq<ClientPacket>, ok: nat -> bool, n: nat)
    ensures var m := SentCount(ps, ok, n);
      m <= |ps| && SentData(ps, ok, n) + CLIENT_HEADER_SIZE * m == PacketBytes(ps[..m])
  {
    HandedMeaning(ps, ok, n);
    if ps != [] && ok(n) {
      HandedMeaning(ps[1..], ok, n + 1);
      SentDataIs(ps[1..], ok, n + 1);
      var m := SentCount(ps, ok, n);
      assert m > 0 && ps[..m][1..] == ps[1..][..m - 1];
    }
  }

  /** The forwarding loop after `count` packets, with `more` to come. */
  ghost predicate Progress(all: seq<ClientPacket>, count: nat, more: seq<ClientPacket>, before: seq<GamePacket>,
                           sent: seq<GamePacket>, bytesIn: nat, sessionID: int64, ok: nat -> bool)
  {
    && count <= |all| && all[count..] == more
    && sent == before + DataPackets(sessionID, all[..count])
    && Handed(all, ok, |before|) == count + Handed(more, ok, |before| + count)
    && SentData(all, ok, |before|) == bytesIn + SentData(more, ok, |before| + count)
  }

  /** What the loop has done when it returns. */
  ghost predicate Finished(all: seq<ClientPacket>, before: seq<GamePacket>, sent: seq<GamePacket>, bytesIn: nat,
                           sessionID: int64, ok: nat -> bool)
  {
    var k := Handed(all, ok, |before|);
    k <= |all| && sent == before + DataPackets(sessionID, all[..k]) && bytesIn == SentData(all, ok, |before|)
  }

  lemma ProgressStep(all: seq<ClientPacket>, count: nat, p: ClientPacket, more: seq<ClientPacket>,
                     before: seq<GamePacket>, sent: seq<GamePacket>, bytesIn: nat, sessionID: int64, ok: nat -> bool)
    requires Progress(all, count, [p] + more, before, sent, bytesIn, sessionID, ok)
    ensures |sent| == |before| + count < |before| + |all|
    ensures ok(|sent|) ==> Progress(all, count + 1, more, before, sent + [DataPacket(sessionID, p)],
                                    bytesIn + |p.data|, sessionID, ok)
    ensures !ok(|sent|) ==> Finished(all, before, sent + [DataPacket(sessionID, p)], bytesIn, sessionID, ok)
  {
    TakeOne(all, count, p, more);
    DataPacketsAppend(sessionID, all[..count], p);
    assert ([p] + more)[1..] == more;
  }

  lemma ProgressEnd(all: seq<ClientPacket>, count: nat, before: seq<GamePacket>, sent: seq<GamePacket>, bytesIn: nat,
                    sessionID: int64, ok: nat -> bool)
    requires Progress(all, count, [], before, sent, bytesIn, sessionID, ok)
    ensures Finished(all, before, sent, bytesIn, sessionID, ok)
  {
  }

  /**
   `forwardGrpcConnection`: packets are read and sent until a read or a send fails.
   Call `i` of `Send` is the one that extends `sent` from length `i`.
   */
  method ForwardGrpc(c: Conn, before: seq<GamePacket>, sessionID: int64, maxSize: int, ok: nat -> bool)
    returns (sent: seq<GamePacket>, bytesIn: nat)
    modifies c.Objects()
    ensures Finished(old(c.Packets(maxSize)).packets, before, sent, bytesIn, sessionID, ok)
  {
    hide Conn.Packets;
    sent, bytesIn := before, 0;
    ghost var all := c.Packets(maxSize).packets;
    ghost var more, count: nat := all, 0;
    while true
      invariant Progress(all, count, more, before, sent, bytesIn, sessionID, ok)
      invariant c.Packets(maxSize).packets == more
      decreases |all| - count
    {
      var packet := c.ReadFullPacket(maxSize);
      if packet.Err? {
        ProgressEnd(all, count, before, sent, bytesIn, sessionID, ok);
        return;
      }
      var p := packet.value;
      more := c.Packets(maxSize).packets;
      ProgressStep(all, count, p, more, before, sent, bytesIn, sessionID, ok);
      var sendOk := ok(|sent|);
      sent := sent + [DataPacket(sessionID, p)];
      if !sendOk {
        return;
      }
      bytesIn := bytesIn + |p.data|;
      count := count + 1;
    }
  }

  lemma FirstData(sessionID: int64, ps: seq<ClientPacket>, k: nat)
    requires 1 <= k <= |ps|
    ensures DataPackets(sessionID, ps[..k]) == [DataPacket(sessionID, ps[0])] + DataPackets(sessionID, ps[1..][..k - 1])
  {
  }

  /** After the connect and the first packet, the rest of the session completes the trace. */
  lemma {:induction false} TraceComplete(ps: seq<ClientPacket>, before: seq<GamePacket>,
                                         sent: seq<GamePacket>, bytesIn: nat,
                      sessionID: int64, ok: nat -> bool)
    requires ps != [] && before == [GamePacket(Connect, sessionID, 0, []), DataPacket(sessionID, ps[0])]
    requires ok(1) ==> Finished(ps[1..], before, sent, bytesIn, sessionID, ok)
    requires !ok(1) ==> sent == before
    ensures FullTrace(sent + [GamePacket(Disconnect, sessionID, 0, [])], sessionID, ps, ok, Handed(ps, ok, 1))
  {
    hide DataPackets;
    HandedMeaning(ps, ok, 1);
    FirstData(sessionID, ps, Handed(ps, ok, 1));
  }

  /** The session after its first packet `p` was read and routed. */
  method ServeSession(c: Conn, p: ClientPacket, sessionID: int64, maxSize: int, ok: nat -> bool)
    returns (sent: seq<GamePacket>, bytesIn: nat)
    modifies c.Objects()
    ensures var ps := [p] + old(c.Packets(maxSize)).packets;
      && SessionTrace(sent, sessionID, ps, true, ok, Handed(ps, ok, 1))
      && bytesIn == if ok(0) && ok(1) then SentData(ps[1..], ok, 2) else 0
  {
    hide Conn.Packets, FullTrace;
    ghost var rest := c.Packets(maxSize).packets;
    sent, bytesIn := [GamePacket(Connect, sessionID, 0, [])], 0;
    if !ok(0) {
      return;
    }
    var before := sent + [DataPacket(sessionID, p)];
    sent := before;
    if ok(1) {
      sent, bytesIn := ForwardGrpc(c, before, sessionID, maxSize, ok);
    }
    assert ([p] + rest)[1..] == rest;
    TraceComplete([p] + rest, before, sent, bytesIn, sessionID, ok);
    sent := sent + [GamePacket(Disconnect, sessionID, 0, [])];
  }

  /**
   The session from its first packet to the deferred disconnect.  `bytesIn` counts
   what the forwarding loop sent, so not the first packet.
   */
  method RunSession(c: Conn, sessionID: int64, maxSize: int, routed: bool, ok: nat -> bool)
    returns (sent: seq<GamePacket>, bytesIn: nat)
    modifies c.Objects()
    ensures var ps := old(c.Packets(maxSize)).packets;
      && SessionTrace(sent, sessionID, ps, routed, ok, Handed(ps, ok, 1))
      && bytesIn == if ps != [] && routed && ok(0) && ok(1) then SentData(ps[1..], ok, 2) else 0
  {
    sent, bytesIn := [], 0;
    var first := c.ReadFullPacket(maxSize);
    if first.Ok? && routed {
      sent, bytesIn := ServeSession(c, first.value, sessionID, maxSize, ok);
    }
  }

  // ---------------------------------------------------------------------------
  // From the backend to the client

  /** `sendToSession` on a TCP client: header and payload are written one after the other. */
  method SendTcp(out: seq<byte>, msgID: int32, payload: seq<byte>) returns (out': seq<byte>, bytesOut: nat)
    ensures out' == out + ClientMessage(msgID, payload)
    ensures bytesOut == |ClientMessage(msgID, payload)|
  {
    out' := out + EncodeClientHeader(ClientHeader(|payload| % 0x1_0000, msgID % 0x1_0000, 0));
    if |payload| > 0 {
      out' := out' + payload;
      bytesOut := 8 + |payload|;
    } else {
      bytesOut := 8;
    }
    assert out' == out + ClientMessage(msgID, payload);
  }

  /** `sendToSession` on a WebSocket client: both go into one binary frame. */
  method SendWebSocket(w: WebSocketConn, msgID: int32, payload: seq<byte>) returns (bytesOut: nat)
    requires |payload| < 0x7fff_ffff_ffff_fff7
    modifies w`sent
    ensures w.sent == old(w.sent) + EncodeServer(Frame(true, BINARY, ClientMessage(msgID, payload)))
    ensures bytesOut == |ClientMessage(msgID, payload)|
  {
    var headerBuf := EncodeClientHeader(ClientHeader(|payload| % 0x1_0000, msgID % 0x1_0000, 0));
    var fullMessage := headerBuf + payload;
    w.WriteFrame(BINARY, fullMessage, true);
    bytesOut := |fullMessage|;
  }

  /**
   Both branches of `sendToSession` reach the client as the same packet: the frame
   carries exactly the bytes of the TCP branch, and these are one packet with the
   message's ID modulo 2^16 and its payload, if and only if the payload is at most
   65535 bytes long.
   */
  lemma BranchesAgree(msgID: int32, payload: seq<byte>, rest: seq<byte>)
    requires |payload| < 0x7fff_ffff_ffff_fff7
    ensures ParseServerFrame(EncodeServer(Frame(true, BINARY, ClientMessage(msgID, payload))) + rest)
         == Taken(Ok(Frame(true, BINARY, ClientMessage(msgID, payload))), rest)
    ensures |payload| < 0x1_0000 <==>
            ParsePacket(ClientMessage(msgID, payload), EOF, 0)
            == Taken(Ok(ClientPacket(msgID % 0x1_0000, 0, payload)), [])
  {
    hide EncodeServer, ParseServerFrame;
    ServerFrameRoundTrip(Frame(true, BINARY, ClientMessage(msgID, payload)), rest);
    if |payload| < 0x1_0000 {
      var p := ClientPacket(msgID % 0x1_0000, 0, payload);
      assert EncodePacket(p) + [] == ClientMessage(msgID, payload);
      PacketRoundTrip(p, [], EOF, 0);
    }
  }
}
