/**
 Whole messages between gateway and backend: server header, gate header in its
 short or long form, data; and the trace context they carry.
 */
module ServerMessage {
  import opened Bytes
  import opened Packet
  import opened Wrappers

  // ---------------------------------------------------------------------------
  // Hexadecimal trace and span IDs

  function HexDigit(n: int): (c: char)
    requires 0 <= n < 16
  {
    if n < 10 then '0' + n as char else 'a' + (n - 10) as char
  }

  /** `encoding/hex` accepts digits of both cases. */
  function HexValue(c: char): (r: Option<int>)
    ensures r.Some? ==> 0 <= r.value < 16
  {
    if '0' <= c <= '9' then Some(c as int - '0' as int)
    else if 'a' <= c <= 'f' then Some(c as int - 'a' as int + 10)
    else if 'A' <= c <= 'F' then Some(c as int - 'A' as int + 10)
    else None
  }

  function HexEncode(b: seq<byte>): (s: string)
    ensures |s| == 2 * |b|
  {
    if b == [] then [] else [HexDigit(b[0] / 16), HexDigit(b[0] % 16)] + HexEncode(b[1..])
  }

  function HexDecode(s: string): (r: Option<seq<byte>>)
    ensures r.Some? ==> 2 * |r.value| == |s|
  {
    if s == [] then Some([])
    else if |s| == 1 then None
    else
      match (HexValue(s[0]), HexValue(s[1]), HexDecode(s[2..]))
      case (Some(h), Some(l), Some(more)) => Some([16 * h + l] + more)
      case _ => None
  }

  lemma {:induction false} HexRoundTrip(b: seq<byte>)
    ensures HexDecode(HexEncode(b)) == Some(b)
  {
    if b != [] {
      HexRoundTrip(b[1..]);
      var s := HexEncode(b);
      assert s[0] == HexDigit(b[0] / 16) && s[1] == HexDigit(b[0] % 16) && s[2..] == HexEncode(b[1..]);
      assert [b[0]] + b[1..] == b;
      assert HexValue(HexDigit(b[0] / 16)) == Some(b[0] / 16);
      assert HexValue(HexDigit(b[0] % 16)) == Some(b[0] % 16);
    }
  }

  /** The digits: lower case is written, both cases are read. */
  lemma HexValues(c: char, n: nat)
    requires n < 16
    ensures HexDigit(n) == "0123456789abcdef"[n]
    ensures HexValue(c) == Some(n) <==> c == "0123456789abcdef"[n] || c == "0123456789ABCDEF"[n]
  {
  }

  /** What is decoded: an even number of digits, two for each byte, the high one first. */
  lemma {:induction false} HexDecodeIs(s: string)
    ensures HexDecode(s).Some? <==> |s| % 2 == 0 && forall i :: 0 <= i < |s| ==> HexValue(s[i]).Some?
    ensures HexDecode(s).Some? ==> forall i :: 0 <= i < |HexDecode(s).value| ==>
      HexDecode(s).value[i] == 16 * HexValue(s[2 * i]).value + HexValue(s[2 * i + 1]).value
    decreases |s|
  {
    hide HexValue;
    if |s| >= 2 {
      var t := s[2..];
      HexDecodeIs(t);
      HexDecodeFirst(s);
      hide HexDecode;
      assert forall i :: 0 <= i < |t| ==> t[i] == s[i + 2];
      assert (forall i :: 0 <= i < |s| ==> HexValue(s[i]).Some?) <==>
        HexValue(s[0]).Some? && HexValue(s[1]).Some? && forall i :: 0 <= i < |t| ==> HexValue(t[i]).Some? by {
        forall i | 2 <= i < |s| ensures s[i] == t[i - 2] {
        }
      }
      if HexDecode(s).Some? {
        var v := HexDecode(s).value;
        forall i | 0 <= i < |v| ensures v[i] == 16 * HexValue(s[2 * i]).value + HexValue(s[2 * i + 1]).value {
          if i > 0 {
            assert v[i] == HexDecode(t).value[i - 1];
            assert t[2 * (i - 1)] == s[2 * i] && t[2 * (i - 1) + 1] == s[2 * i + 1];
          }
        }
      }
    }
  }

  lemma HexDecodeFirst(s: string)
    requires |s| >= 2
    ensures HexDecode(s) ==
      if HexValue(s[0]).Some? && HexValue(s[1]).Some? && HexDecode(s[2..]).Some?
      then Some([16 * HexValue(s[0]).value + HexValue(s[1]).value] + HexDecode(s[2..]).value)
      else None
  {
    hide HexValue;
  }

  /** The trace context handed to `WriteServerMessage`; a nil map is an empty one. */
  type TraceContext = map<string, string>

  predicate NonZero(b: seq<byte>) {
    exists i :: 0 <= i < |b| && b[i] != 0
  }

  /** `extractTraceContext`: nothing unless both IDs of the span are valid. */
  function ExtractTraceContext(traceID: seq<byte>, spanID: seq<byte>): TraceContext {
    if NonZero(traceID) && NonZero(spanID) then
      map["trace_id" := HexEncode(traceID), "span_id" := HexEncode(spanID)]
    else map[]
  }

  /** An ID of `n` bytes from the trace context, or zeros if it is absent or malformed. */
  function IdFrom(trace: TraceContext, key: string, n: nat): (b: seq<byte>)
    ensures |b| == n
  {
    if key in trace && |trace[key]| == 2 * n && HexDecode(trace[key]).Some? then HexDecode(trace[key]).value
    else Zeros(n)
  }

  /** An ID is taken exactly if it is there with the right number of digits and nothing else. */
  lemma IdFromIs(trace: TraceContext, key: string, n: nat)
    ensures var b := IdFrom(trace, key, n);
      if key in trace && |trace[key]| == 2 * n && forall i :: 0 <= i < 2 * n ==> HexValue(trace[key][i]).Some?
      then forall i :: 0 <= i < n ==>
        b[i] == 16 * HexValue(trace[key][2 * i]).value + HexValue(trace[key][2 * i + 1]).value
      else b == Zeros(n)
  {
    hide HexValue, HexDecode;
    if key in trace {
      HexDecodeIs(trace[key]);
    }
  }

  function GateFor(sessionID: int64, trace: TraceContext): (h: GateHeader)
    ensures ValidGate(h)
  {
    GateHeader(1, sessionID, IdFrom(trace, "trace_id", 16), IdFrom(trace, "span_id", 8))
  }

  /** The trace and span of a valid span arrive in the gate header; an invalid span leaves no trace. */
  lemma TracePropagates(sessionID: int64, traceID: seq<byte>, spanID: seq<byte>)
    requires |traceID| == 16 && |spanID| == 8
    ensures var h := GateFor(sessionID, ExtractTraceContext(traceID, spanID));
      if NonZero(traceID) && NonZero(spanID)
      then h == GateHeader(1, sessionID, traceID, spanID) && HasTraceContext(h)
      else !HasTraceContext(h)
  {
    HexRoundTrip(traceID);
    HexRoundTrip(spanID);
    assert "trace_id" != "span_id" by { assert "trace_id"[0] != "span_id"[0]; }
  }

  // ---------------------------------------------------------------------------
  // Messages

  datatype Message = Message(kind: int32, serverID: uint32, objectID: int64, gate: GateHeader, data: seq<byte>)

  /** The length field counts the gate header and the data, as an `int32`. */
  function Length(m: Message): int {
    GateSize(HasTraceContext(m.gate)) + |m.data|
  }

  /** Short enough for the `int32` length field. */
  predicate Sendable(m: Message) {
    ValidGate(m.gate) && Length(m) < 0x8000_0000
  }

  function EncodeMessage(m: Message): seq<byte>
    requires ValidGate(m.gate)
  {
    EncodeServerHeader(ServerHeader(Int32(Length(m)), m.kind, m.serverID, m.objectID)) + EncodeGate(m.gate) + m.data
  }

  /** The message `WriteServerMessage` writes. */
  function MessageFor(kind: int32, sessionID: int64, data: seq<byte>, trace: TraceContext): (m: Message)
    ensures ValidGate(m.gate)
  {
    Message(kind, 0, sessionID, GateFor(sessionID, trace), data)
  }

  method WriteServerMessage(w: seq<byte>, kind: int32, sessionID: int64, data: seq<byte>, trace: TraceContext)
    returns (w': seq<byte>)
    ensures w' == w + EncodeMessage(MessageFor(kind, sessionID, data, trace))
  {
    hide HexDecode, EncodeServerHeader, EncodeGate;
    var traceID, spanID := Zeros(16), Zeros(8);
    if "trace_id" in trace && |trace["trace_id"]| == 32 {
      var decoded := HexDecode(trace["trace_id"]);
      if decoded.Some? { traceID := decoded.value; }
    }
    if "span_id" in trace && |trace["span_id"]| == 16 {
      var decoded := HexDecode(trace["span_id"]);
      if decoded.Some? { spanID := decoded.value; }
    }
    var gate := GateHeader(1, sessionID, traceID, spanID);
    var headerSize := GATE_HEADER_SIZE;
    if HasTraceContext(gate) {
      headerSize := GATE_HEADER_EXTENDED_SIZE;
    }
    var header := ServerHeader(Int32(headerSize + |data|), kind, 0, sessionID);
    w' := w + EncodeServerHeader(header);
    w' := w' + EncodeGate(gate);
    if |data| > 0 {
      w' := w' + data;
    }
    assert gate == GateFor(sessionID, trace);
    assert w' == w + (EncodeServerHeader(header) + EncodeGate(gate) + data);
  }

  /** How a reader that expects the short or the long gate header reads a message. */
  function ParseMessage(s: seq<byte>, extended: bool): (t: Taken<Message>)
    ensures t.r.Ok? ==> |t.rest| < |s|
  {
    if |s| < SERVER_HEADER_SIZE then Taken(Err(ShortRead(s, EOF)), [])
    else
      var h := DecodeServerHeader(s[..SERVER_HEADER_SIZE]);
      var g := TakeFull(s[SERVER_HEADER_SIZE..], GateSize(extended));
      if g.r.Err? then Taken(Err(g.r.error), g.rest)
      else if h.length < GateSize(extended) then Taken(Err(NegativeLength), g.rest)
      else
        var d := TakeFull(g.rest, h.length - GateSize(extended));
        if d.r.Err? then Taken(Err(d.r.error), d.rest)
        else Taken(Ok(Message(h.kind, h.serverID, h.objectID, DecodeGate(g.r.value, extended), d.r.value)), d.rest)
  }

  /** Exactly when a length that is too short for the gate header is reported. */
  lemma ShortLengthExactly(s: seq<byte>, extended: bool)
    ensures ParseMessage(s, extended).r == Err(NegativeLength) <==>
      && |s| >= SERVER_HEADER_SIZE + GateSize(extended)
      && DecodeServerHeader(s[..SERVER_HEADER_SIZE]).length < GateSize(extended)
  {
    hide DecodeServerHeader, DecodeGate;
  }

  lemma MessageShape(m: Message, rest: seq<byte>)
    requires Sendable(m)
    ensures var s := EncodeMessage(m) + rest;
      && |s| >= SERVER_HEADER_SIZE
      && s[..SERVER_HEADER_SIZE] == EncodeServerHeader(ServerHeader(Length(m), m.kind, m.serverID, m.objectID))
      && s[SERVER_HEADER_SIZE..] == EncodeGate(m.gate) + (m.data + rest)
  {
    assert Int32(Length(m)) == Length(m);
    Regroup(EncodeServerHeader(ServerHeader(Length(m), m.kind, m.serverID, m.objectID)),
            EncodeGate(m.gate), m.data, rest);
  }

  lemma Regroup(a: seq<byte>, b: seq<byte>, c: seq<byte>, d: seq<byte>)
    ensures (a + b + c + d)[..|a|] == a && (a + b + c + d)[|a|..] == b + (c + d)
  {
  }

  /** Read in the mode it was written in, a message comes back and exactly its bytes are consumed. */
  lemma MessageRoundTrip(m: Message, rest: seq<byte>)
    requires Sendable(m)
    ensures ParseMessage(EncodeMessage(m) + rest, HasTraceContext(m.gate))
         == Taken(Ok(m.(gate := Sent(m.gate))), rest)
  {
    MessageShape(m, rest);
    ServerHeaderRoundTrip(ServerHeader(Length(m), m.kind, m.serverID, m.objectID));
    TakeFullExact(EncodeGate(m.gate), m.data + rest);
    TakeFullExact(m.data, rest);
    GateRoundTrip(m.gate);
  }

  /** What a reader that always expects the short gate header takes for the data. */
  function ShortFormData(m: Message): seq<byte> {
    if HasTraceContext(m.gate) then m.gate.traceID + m.gate.spanID + m.data else m.data
  }

  /** The long gate header is the short one, followed by the trace and span IDs. */
  lemma ShortFormBytes(m: Message, rest: seq<byte>)
    requires ValidGate(m.gate)
    ensures var short := m.gate.(traceID := Zeros(16), spanID := Zeros(8));
      EncodeGate(m.gate) + (m.data + rest) == EncodeGate(short) + (ShortFormData(m) + rest)
  {
    hide LittleEndian;
    var short := m.gate.(traceID := Zeros(16), spanID := Zeros(8));
    var more := if HasTraceContext(m.gate) then m.gate.traceID + m.gate.spanID else [];
    assert EncodeGate(m.gate) == EncodeGate(short) + more;
    assert more + m.data == ShortFormData(m);
    assert EncodeGate(short) + more + (m.data + rest) == EncodeGate(short) + (more + m.data + rest);
  }

  /** Read with the short gate header, a message of either form still yields exactly its bytes. */
  lemma ShortFormRead(m: Message, rest: seq<byte>)
    requires Sendable(m)
    ensures ParseMessage(EncodeMessage(m) + rest, false) == Taken(Ok(Message(m.kind, m.serverID, m.objectID,
      GateHeader(m.gate.opCode, m.gate.sessionID, Zeros(16), Zeros(8)), ShortFormData(m))), rest)
  {
    hide DecodeServerHeader, EncodeServerHeader, EncodeMessage;
    MessageShape(m, rest);
    ServerHeaderRoundTrip(ServerHeader(Length(m), m.kind, m.serverID, m.objectID));
    var short := m.gate.(traceID := Zeros(16), spanID := Zeros(8));
    GateRoundTrip(short);
    ShortFormBytes(m, rest);
    hide EncodeGate, DecodeGate, ShortFormData;
    TakeFullExact(EncodeGate(short), ShortFormData(m) + rest);
    TakeFullExact(ShortFormData(m), rest);
  }
}
