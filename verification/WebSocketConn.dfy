/**
 `WebSocketConn`: the adapter that turns WebSocket messages into a stream of
 bytes, and what the client gets back for its pings.
 */
module WebSocketConnection {
  import opened Bytes
  import opened WebSocketFrame

  /** A control reply, cut to the 125 bytes a control frame may carry. */
  function Reply(opcode: Nibble, payload: seq<byte>): seq<byte> {
    EncodeServer(Frame(true, opcode, if |payload| > 125 then payload[..125] else payload))
  }

  /**
   Everything a connection will ever do with the bytes it can still read: the bytes
   it delivers, the replies it sends, and the error its last `Read` returns.
   */
  datatype Delivery = Delivery(bytes: seq<byte>, replies: seq<byte>, end: Error)

  function Prepend(bytes: seq<byte>, replies: seq<byte>, d: Delivery): Delivery {
    Delivery(bytes + d.bytes, replies + d.replies, d.end)
  }

  lemma PrependTwice(b: seq<byte>, r: seq<byte>, c: seq<byte>, q: seq<byte>, d: Delivery)
    ensures Prepend(b, r, Prepend(c, q, d)) == Prepend(b + c, r + q, d)
  {
    assert b + (c + d.bytes) == b + c + d.bytes;
    assert r + (q + d.replies) == r + q + d.replies;
  }

  /** What one frame does: it delivers `bytes`, sends `replies`, and then goes on or fails. */
  datatype Effect =
    | Continue(bytes: seq<byte>, replies: seq<byte>, fragments: seq<byte>)
    | Stop(bytes: seq<byte>, replies: seq<byte>, error: Error)

  function OnFrame(f: Frame, fragments: seq<byte>): Effect {
    if f.opcode == BINARY then
      if f.fin then Continue(f.payload, [], fragments) else Continue([], [], fragments + f.payload)
    else if f.opcode == CONTINUATION then
      if fragments == [] then Stop([], [], UnsupportedFrame)
      else if f.fin then Continue(fragments + f.payload, [], [])
      else Continue([], [], fragments + f.payload)
    else if f.opcode == PING then Continue([], Reply(PONG, f.payload), fragments)
    else if f.opcode == CLOSE then Stop([], Reply(CLOSE, f.payload), EOF)
    else if f.opcode == TEXT then Stop([], [], UnsupportedFrame)
    else Continue([], [], fragments)
  }

  /** `nextDataPayload` until it fails, from the unread `input` and the collected `fragments`. */
  function Deliver(input: seq<byte>, fragments: seq<byte>, maxPayload: int): Delivery
    decreases |input|
  {
    var t := ParseFrame(input, maxPayload);
    if t.r.Err? then Delivery([], [], t.r.error)
    else match OnFrame(t.r.value, fragments)
      case Stop(b, q, e) => Delivery(b, q, e)
      case Continue(b, q, fragments') => Prepend(b, q, Deliver(t.rest, fragments', maxPayload))
  }

  /** All that was sent and all that is still to come, when nothing is pending. */
  function Ahead(sent: seq<byte>, input: seq<byte>, fragments: seq<byte>, maxPayload: int): Delivery {
    Prepend([], sent, Deliver(input, fragments, maxPayload))
  }

  lemma AheadError(sent: seq<byte>, input: seq<byte>, fragments: seq<byte>, maxPayload: int)
    requires ParseFrame(input, maxPayload).r.Err?
    ensures Ahead(sent, input, fragments, maxPayload) == Delivery([], sent, ParseFrame(input, maxPayload).r.error)
  {
  }

  lemma AheadFrame(sent: seq<byte>, input: seq<byte>, fragments: seq<byte>, maxPayload: int)
    requires ParseFrame(input, maxPayload).r.Ok?
    ensures var t := ParseFrame(input, maxPayload);
      Ahead(sent, input, fragments, maxPayload) ==
        match OnFrame(t.r.value, fragments)
        case Stop(b, q, e) => Delivery(b, sent + q, e)
        case Continue(b, q, fr) => Prepend(b, [], Ahead(sent + q, t.rest, fr, maxPayload))
  {
    var t := ParseFrame(input, maxPayload);
    match OnFrame(t.r.value, fragments)
    case Stop(b, q, e) =>
    case Continue(b, q, fr) =>
      var d := Deliver(t.rest, fr, maxPayload);
      PrependTwice([], sent, b, q, d);
      PrependTwice(b, [], [], sent + q, d);
      assert [] + b == b + [] && [] + (sent + q) == sent + q;
  }

  // ---------------------------------------------------------------------------
  // The connection

  class WebSocketConn {
    var input: seq<byte>        // what `reader` has not yet returned
    var sent: seq<byte>         // what was written to `conn`
    const maxPayload: int
    var pending: seq<byte>
    var fragmentBuf: seq<byte>

    constructor (input: seq<byte>, maxPayload: int)
      ensures this.input == input && this.maxPayload == maxPayload
      ensures sent == pending == fragmentBuf == []
    {
      this.input, this.maxPayload := input, maxPayload;
      sent, pending, fragmentBuf := [], [], [];
    }

    method ReadFull(n: nat) returns (r: Result<seq<byte>>)
      modifies `input
      ensures Taken(r, input) == TakeFull(old(input), n)
    {
      if |input| < n {
        r := Err(if input == [] then EOF else UnexpectedEOF);
        input := [];
      } else {
        r := Ok(input[..n]);
        input := input[n..];
      }
    }

    /** The extended payload length of `readFrame`. */
    method ReadLength(code: nat) returns (r: Result<int64>)
      modifies `input
      ensures Taken(r, input) == TakeLength(old(input), code)
    {
      if code == 126 {
        var lenBuf := ReadFull(2);
        if lenBuf.Err? { return Err(lenBuf.error); }
        r := Ok(Int64(FromBigEndian(lenBuf.value)));
      } else if code == 127 {
        var lenBuf := ReadFull(8);
        if lenBuf.Err? { return Err(lenBuf.error); }
        r := Ok(Int64(FromBigEndian(lenBuf.value)));
      } else {
        r := Ok(Int64(code));
      }
    }

    /** The mask key and the payload of `readFrame`, unmasked where it lies. */
    method ReadPayload(payloadLen: int) returns (r: Result<seq<byte>>)
      modifies `input
      ensures Taken(r, input) == TakePayload(old(input), payloadLen)
    {
      var maskKey := ReadFull(4);
      if maskKey.Err? { return maskKey; }
      if payloadLen < 0 { return Err(NegativeLength); }
      var data := ReadFull(payloadLen);
      if data.Err? { return data; }
      var payload := new byte[payloadLen](i requires 0 <= i < payloadLen => data.value[i]);
      assert payload[..] == data.value;
      UnmaskInPlace(payload, maskKey.value);
      r := Ok(payload[..]);
    }

    method ReadFrame() returns (r: Result<Frame>)
      modifies `input
      ensures Taken(r, input) == ParseFrame(old(input), maxPayload)
    {
      if |input| < 2 {
        input := [];
        return Err(EOF);
      }
      var h1, h2 := input[0], input[1];
      input := input[2..];
      if h2 < 128 { return Err(FrameNotMasked); }
      var payloadLen := ReadLength(h2 - 128);
      if payloadLen.Err? { return Err(payloadLen.error); }
      if maxPayload > 0 && payloadLen.value > maxPayload { return Err(MessageTooLarge); }
      var payload := ReadPayload(payloadLen.value);
      if payload.Err? { return Err(payload.error); }
      r := Ok(Frame(h1 >= 128, h1 % 16, payload.value));
    }

    method WriteFrame(opcode: Nibble, payload: seq<byte>, fin: bool)
      requires |payload| < 0x8000_0000_0000_0000
      modifies `sent
      ensures sent == old(sent) + EncodeServer(Frame(fin, opcode, payload))
    {
      hide BigEndian;
      var header: seq<byte> := [if fin then 128 + opcode else opcode];
      var payloadLen := |payload|;
      if payloadLen <= 125 {
        header := header + [payloadLen];
      } else if payloadLen <= 65535 {
        header := header + [126];
        header := header + BigEndian(2, payloadLen);
      } else {
        header := header + [127];
        header := header + BigEndian(8, payloadLen);
      }
      sent := sent + header;
      if payloadLen > 0 {
        sent := sent + payload;
      }
      assert header + payload == EncodeServer(Frame(fin, opcode, payload));
      assert sent == old(sent) + (header + payload);
    }

    method WriteControlFrame(opcode: Nibble, payload: seq<byte>)
      modifies `sent
      ensures sent == old(sent) + Reply(opcode, payload)
    {
      var p := payload;
      if |p| > 125 {
        p := p[..125];
      }
      WriteFrame(opcode, p, true);
    }

    /** The switch of `nextDataPayload`: `done` when it returns, with `r`. */
    method Handle(f: Frame) returns (done: bool, r: Result<seq<byte>>)
      modifies `sent, `fragmentBuf
      ensures match OnFrame(f, old(fragmentBuf))
        case Stop(_, q, e) => done && r == Err(e) && sent == old(sent) + q
        case Continue(b, q, fragments) =>
          sent == old(sent) + q && fragmentBuf == fragments && r == Ok(b) && (!done ==> b == [])
    {
      done, r := false, Ok([]);
      if f.opcode == BINARY {
        if f.fin { return true, Ok(f.payload); }
        fragmentBuf := fragmentBuf + f.payload;
      } else if f.opcode == CONTINUATION {
        if |fragmentBuf| == 0 { return true, Err(UnsupportedFrame); }
        fragmentBuf := fragmentBuf + f.payload;
        if f.fin {
          done, r := true, Ok(fragmentBuf);
          fragmentBuf := [];
        }
      } else if f.opcode == PING {
        WriteControlFrame(PONG, f.payload);
      } else if f.opcode == CLOSE {
        WriteControlFrame(CLOSE, f.payload);
        return true, Err(EOF);
      } else if f.opcode == TEXT {
        return true, Err(UnsupportedFrame);
      }
    }

    /** The next complete binary message, answering control frames on the way. */
    method NextDataPayload() returns (r: Result<seq<byte>>)
      modifies `input, `sent, `fragmentBuf
      ensures r.Ok? ==>
        && |input| < |old(input)|
        && Prepend(r.value, [], Ahead(sent, input, fragmentBuf, maxPayload))
           == old(Ahead(sent, input, fragmentBuf, maxPayload))
      ensures r.Err? ==> Delivery([], sent, r.error) == old(Ahead(sent, input, fragmentBuf, maxPayload))
    {
      while true
        invariant Ahead(sent, input, fragmentBuf, maxPayload) == old(Ahead(sent, input, fragmentBuf, maxPayload))
        invariant |input| <= |old(input)|
        decreases |input|
      {
        ghost var sent0, input0, fragments0 := sent, input, fragmentBuf;
        var frame := ReadFrame();
        if frame.Err? {
          AheadError(sent0, input0, fragments0, maxPayload);
          return Err(frame.error);
        }
        AheadFrame(sent0, input0, fragments0, maxPayload);
        var done, payload := Handle(frame.value);
        if done { return payload; }
      }
    }

    /** The bytes still to be delivered, all replies sent or still to be sent, and the final error. */
    ghost function Future(): Delivery
      reads this
    {
      Prepend(pending, [], Ahead(sent, input, fragmentBuf, maxPayload))
    }

    /** `Read` into a buffer of `n` bytes. */
    method Read(n: nat) returns (r: Result<seq<byte>>)
      modifies `input, `sent, `fragmentBuf, `pending
      ensures r.Ok? ==>
        && |r.value| <= n && (n > 0 ==> r.value != []) && (|r.value| == n || pending == [])
        && Prepend(r.value, [], Future()) == old(Future())
      ensures r.Err? <==> old(Future()).bytes == []
      ensures r.Err? ==> Delivery([], sent, r.error) == old(Future())
    {
      while |pending| == 0
        invariant Future() == old(Future())
        decreases |input|
      {
        var payload := NextDataPayload();
        if payload.Err? { return Err(payload.error); }
        pending := payload.value;
      }
      var k := if n <= |pending| then n else |pending|;
      assert pending == pending[..k] + pending[k..];
      PrependTwice(pending[..k], [], pending[k..], [], Ahead(sent, input, fragmentBuf, maxPayload));
      r := Ok(pending[..k]);
      pending := pending[k..];
    }
  }

  /** The loop of `readFrame` that unmasks the payload where it lies. */
  method UnmaskInPlace(payload: array<byte>, key: seq<byte>)
    requires |key| == 4
    modifies payload
    ensures payload[..] == Mask(old(payload[..]), key)
  {
    ghost var was := payload[..];
    for i := 0 to payload.Length
      invariant payload[..i] == Mask(was, key)[..i]
      invariant payload[i..] == was[i..]
    {
      payload[i] := Xor(payload[i], key[i % 4]);
      assert payload[..i + 1] == payload[..i] + [payload[i]];
      assert Mask(was, key)[..i + 1] == Mask(was, key)[..i] + [Mask(was, key)[i]];
    }
    assert payload[..] == payload[..payload.Length];
  }

  // ---------------------------------------------------------------------------
  // Reassembly of conforming clients

  predicate TooLarge(f: Frame, maxPayload: int) {
    maxPayload > 0 && |f.payload| > maxPayload
  }

  /** What a sequence of frames does; a frame over the limit is refused when it is read. */
  function OnFrames(frames: seq<Frame>, fragments: seq<byte>, maxPayload: int): Effect {
    if frames == [] then Continue([], [], fragments)
    else if TooLarge(frames[0], maxPayload) then Stop([], [], MessageTooLarge)
    else match OnFrame(frames[0], fragments)
      case Stop(b, q, e) => Stop(b, q, e)
      case Continue(b, q, fragments') =>
        After(b, q, OnFrames(frames[1..], fragments', maxPayload))
  }

  /** `effect` when `bytes` and `replies` came before it. */
  function After(bytes: seq<byte>, replies: seq<byte>, effect: Effect): Effect {
    effect.(bytes := bytes + effect.bytes, replies := replies + effect.replies)
  }

  /**
   Sections 5.4 and 5.5 of RFC 6455 for a client of binary messages that sends no
   close frame: fragments of one message are not interleaved with another message,
   control frames may come anywhere, are not fragmented and carry at most 125
   bytes, and the last message is complete.
   */
  predicate Conforming(frames: seq<Frame>, inMessage: bool) {
    if frames == [] then !inMessage
    else
      var f := frames[0];
      if f.opcode == BINARY then !inMessage && Conforming(frames[1..], !f.fin)
      else if f.opcode == CONTINUATION then inMessage && Conforming(frames[1..], !f.fin)
      else (f.opcode == PING || f.opcode == PONG) && f.fin && |f.payload| <= 125 && Conforming(frames[1..], inMessage)
  }

  /** No fragmented message starts with an empty fragment. */
  predicate FirstsNonEmpty(frames: seq<Frame>) {
    forall i :: 0 <= i < |frames| && frames[i].opcode == BINARY && !frames[i].fin ==> frames[i].payload != []
  }

  predicate IsData(f: Frame) {
    f.opcode == BINARY || f.opcode == CONTINUATION
  }

  function DataOf(f: Frame): seq<byte> {
    if IsData(f) then f.payload else []
  }

  /** The payloads of the binary messages, in order. */
  function DataBytes(frames: seq<Frame>): seq<byte> {
    if frames == [] then [] else DataOf(frames[0]) + DataBytes(frames[1..])
  }

  /** A ping is answered by a pong with its payload (sections 5.5.2 and 5.5.3). */
  function PongFor(f: Frame): seq<byte> {
    if f.opcode == PING && |f.payload| <= 125 then EncodeServer(Frame(true, PONG, f.payload)) else []
  }

  /** One pong for each ping, in order. */
  function Pongs(frames: seq<Frame>): seq<byte> {
    if frames == [] then [] else PongFor(frames[0]) + Pongs(frames[1..])
  }

  /** No frame is over the limit. */
  predicate Within(frames: seq<Frame>, maxPayload: int) {
    forall i :: 0 <= i < |frames| ==> !TooLarge(frames[i], maxPayload)
  }

  /** The number of frames up to the last one that completes a message. */
  function Boundary(frames: seq<Frame>): (n: nat)
    ensures n <= |frames|
  {
    if frames == [] then 0
    else
      var more := Boundary(frames[1..]);
      if more > 0 then 1 + more
      else if IsData(frames[0]) && frames[0].fin then 1
      else 0
  }

  /** The payloads of the messages that `frames` complete, the first of which began with `fragments`. */
  function CompleteBytes(fragments: seq<byte>, frames: seq<Frame>): seq<byte> {
    if Boundary(frames) == 0 then [] else fragments + DataBytes(frames[..Boundary(frames)])
  }

  /** Whether a message is open after `f`. */
  predicate OpenAfter(f: Frame, inMessage: bool) {
    if IsData(f) then !f.fin else inMessage
  }

  /** Whether the message that is open after `f` has had nothing but an empty first fragment. */
  predicate EmptyAfter(f: Frame, emptyOpen: bool) {
    if f.opcode == BINARY then !f.fin && f.payload == [] else f.opcode != CONTINUATION && emptyOpen
  }

  predicate EmptyOpen(frames: seq<Frame>, emptyOpen: bool) {
    if frames == [] then emptyOpen else EmptyOpen(frames[1..], EmptyAfter(frames[0], emptyOpen))
  }

  /** Frame `k` is over the limit, or continues a message that has had nothing but an empty first fragment. */
  predicate Offends(frames: seq<Frame>, k: nat, emptyOpen: bool, maxPayload: int)
    requires k < |frames|
  {
    TooLarge(frames[k], maxPayload) || (frames[k].opcode == CONTINUATION && EmptyOpen(frames[..k], emptyOpen))
  }

  /** The first such frame, or the number of frames if there is none. */
  function FirstOffence(frames: seq<Frame>, emptyOpen: bool, maxPayload: int): (k: nat)
    ensures k <= |frames|
  {
    if frames == [] || Offends(frames, 0, emptyOpen, maxPayload) then 0
    else 1 + FirstOffence(frames[1..], EmptyAfter(frames[0], emptyOpen), maxPayload)
  }

  lemma {:induction false} FirstOffenceIs(frames: seq<Frame>, emptyOpen: bool, maxPayload: int)
    ensures var k := FirstOffence(frames, emptyOpen, maxPayload);
      && (k < |frames| ==> Offends(frames, k, emptyOpen, maxPayload))
      && (forall i :: 0 <= i < k ==> !Offends(frames, i, emptyOpen, maxPayload))
  {
    if frames != [] && !Offends(frames, 0, emptyOpen, maxPayload) {
      var next := EmptyAfter(frames[0], emptyOpen);
      FirstOffenceIs(frames[1..], next, maxPayload);
      forall i | 0 < i < |frames|
        ensures Offends(frames, i, emptyOpen, maxPayload) == Offends(frames[1..], i - 1, next, maxPayload)
      {
        assert frames[..i][1..] == frames[1..][..i - 1];
      }
    }
  }

  /** A conforming sequence has none exactly if no first fragment is empty and no frame is over the limit. */
  lemma {:induction false} NoOffence(frames: seq<Frame>, inMessage: bool, emptyOpen: bool, maxPayload: int)
    requires Conforming(frames, inMessage) && (emptyOpen ==> inMessage)
    ensures FirstOffence(frames, emptyOpen, maxPayload) == |frames|
       <==> !emptyOpen && FirstsNonEmpty(frames) && Within(frames, maxPayload)
  {
    if frames != [] {
      var f, rest := frames[0], frames[1..];
      assert frames == [f] + rest;
      assert Within(frames, maxPayload) <==> !TooLarge(f, maxPayload) && Within(rest, maxPayload);
      assert FirstsNonEmpty(frames) <==> (f.opcode == BINARY && !f.fin ==> f.payload != []) && FirstsNonEmpty(rest);
      NoOffence(rest, OpenAfter(f, inMessage), EmptyAfter(f, emptyOpen), maxPayload);
    }
  }

  /** What an offending frame is answered with. */
  function OffenceError(f: Frame, maxPayload: int): Error {
    if TooLarge(f, maxPayload) then MessageTooLarge else UnsupportedFrame
  }

  /** What a conforming sequence does: all of it, or what comes before its first offence. */
  function Outcome(frames: seq<Frame>, fragments: seq<byte>, emptyOpen: bool, maxPayload: int): Effect {
    var k := FirstOffence(frames, emptyOpen, maxPayload);
    if k == |frames| then Continue(fragments + DataBytes(frames), Pongs(frames), [])
    else Stop(CompleteBytes(fragments, frames[..k]), Pongs(frames[..k]), OffenceError(frames[k], maxPayload))
  }

  lemma {:induction false} CompleteFirst(f: Frame, frames: seq<Frame>, fragments: seq<byte>)
    ensures CompleteBytes(fragments, [f] + frames) ==
      if IsData(f) && f.fin then fragments + DataOf(f) + CompleteBytes([], frames)
      else CompleteBytes(fragments + DataOf(f), frames)
  {
    var all := [f] + frames;
    assert all[1..] == frames;
    var n := Boundary(frames);
    if n > 0 {
      assert all[..n + 1][0] == f && all[..n + 1][1..] == frames[..n];
    } else {
      assert all[..1] == [f] && [f][1..] == [];
    }
  }

  /** A frame of a conforming client either completes its message or adds to what was collected. */
  lemma FrameEffect(frames: seq<Frame>, inMessage: bool, fragments: seq<byte>)
    requires frames != [] && Conforming(frames, inMessage) && (fragments != [] ==> inMessage)
    requires !(frames[0].opcode == CONTINUATION && inMessage && fragments == [])
    ensures var f := frames[0];
      var collected := fragments + DataOf(f);
      OnFrame(f, fragments) ==
        if IsData(f) && f.fin then Continue(collected, PongFor(f), []) else Continue([], PongFor(f), collected)
    ensures var open, collected := OpenAfter(frames[0], inMessage), OnFrame(frames[0], fragments).fragments;
      && Conforming(frames[1..], open) && (collected != [] ==> open)
      && (open && collected == [] <==> EmptyAfter(frames[0], inMessage && fragments == []))
  {
    hide EncodeServer;
  }

  /** The outcome of the first frame, and then of the others. */
  lemma {:induction false} OutcomeFirst(frames: seq<Frame>, fragments: seq<byte>, emptyOpen: bool, maxPayload: int)
    requires frames != [] && !Offends(frames, 0, emptyOpen, maxPayload)
    ensures var f := frames[0];
      var ends, collected := IsData(f) && f.fin, fragments + DataOf(f);
      Outcome(frames, fragments, emptyOpen, maxPayload) ==
      After(if ends then collected else [], PongFor(f),
            Outcome(frames[1..], if ends then [] else collected, EmptyAfter(f, emptyOpen), maxPayload))
  {
    hide PongFor, DataOf, IsData, Offends, EmptyAfter, OffenceError, CompleteBytes;
    var f, rest := frames[0], frames[1..];
    var k := FirstOffence(frames, emptyOpen, maxPayload);
    if k < |frames| {
      assert frames[..k][0] == f && frames[..k][1..] == rest[..k - 1];
      assert frames[..k] == [f] + rest[..k - 1];
      CompleteFirst(f, rest[..k - 1], fragments);
    } else {
      assert fragments + (DataOf(f) + DataBytes(rest)) == fragments + DataOf(f) + DataBytes(rest);
    }
  }

  lemma {:induction false} ConformingDelivers(frames: seq<Frame>, inMessage: bool, fragments: seq<byte>,
                                              maxPayload: int)
    requires Conforming(frames, inMessage) && (fragments != [] ==> inMessage)
    ensures OnFrames(frames, fragments, maxPayload)
         == Outcome(frames, fragments, inMessage && fragments == [], maxPayload)
  {
    hide PongFor, DataOf, Conforming, EmptyAfter;
    var emptyOpen := inMessage && fragments == [];
    if frames == [] {
      NothingOpen(inMessage);
    } else if Offends(frames, 0, emptyOpen, maxPayload) {
      assert frames[..0] == [];
    } else {
      hide OnFrame, Outcome;
      FrameEffect(frames, inMessage, fragments);
      OutcomeFirst(frames, fragments, emptyOpen, maxPayload);
      ConformingDelivers(frames[1..], OpenAfter(frames[0], inMessage),
                         OnFrame(frames[0], fragments).fragments, maxPayload);
    }
  }

  lemma NothingOpen(inMessage: bool)
    requires Conforming([], inMessage)
    ensures !inMessage
  {
  }

  /** When the offence is a refused continuation, all data before it was delivered. */
  lemma {:induction false} RefusedAfterAll(frames: seq<Frame>, inMessage: bool, fragments: seq<byte>, maxPayload: int)
    requires Conforming(frames, inMessage) && (fragments != [] ==> inMessage)
    requires var k := FirstOffence(frames, inMessage && fragments == [], maxPayload);
      k < |frames| && !TooLarge(frames[k], maxPayload)
    ensures var k := FirstOffence(frames, inMessage && fragments == [], maxPayload);
      CompleteBytes(fragments, frames[..k]) == fragments + DataBytes(frames[..k])
  {
    hide DataOf, IsData, Conforming, EmptyAfter, OnFrame, CompleteBytes, OpenAfter;
    var k := FirstOffence(frames, inMessage && fragments == [], maxPayload);
    if k == 0 {
      assert frames[..0] == [] && fragments == [];
      NothingComplete();
    } else {
      var f, rest := frames[0], frames[1..];
      FrameEffect(frames, inMessage, fragments);
      assert frames[..k] == [f] + rest[..k - 1];
      CompleteFirst(f, rest[..k - 1], fragments);
      DataFirst(f, rest[..k - 1], fragments);
      RefusedAfterAll(rest, OpenAfter(f, inMessage), OnFrame(f, fragments).fragments, maxPayload);
    }
  }

  lemma NothingComplete()
    ensures CompleteBytes([], []) == [] + DataBytes([])
  {
  }

  lemma DataFirst(f: Frame, frames: seq<Frame>, fragments: seq<byte>)
    ensures fragments + DataBytes([f] + frames) == fragments + DataOf(f) + DataBytes(frames)
    ensures fragments + DataOf(f) + ([] + DataBytes(frames)) == fragments + DataOf(f) + DataBytes(frames)
  {
    hide DataOf;
    assert ([f] + frames)[1..] == frames;
    assert [] + DataBytes(frames) == DataBytes(frames);
  }

  /**
   Within the limit, an empty first fragment is refused at its continuation, after the
   data and the pings of all frames before that were delivered and answered.
   */
  lemma {:induction false} SomeEmptyFirstFails(frames: seq<Frame>, maxPayload: int)
    requires Conforming(frames, false) && Within(frames, maxPayload) && !FirstsNonEmpty(frames)
    ensures var k := FirstOffence(frames, false, maxPayload);
      && k < |frames| && frames[k].opcode == CONTINUATION && EmptyOpen(frames[..k], false)
      && OnFrames(frames, [], maxPayload) == Stop(DataBytes(frames[..k]), Pongs(frames[..k]), UnsupportedFrame)
  {
    hide FirstOffence, CompleteBytes, DataBytes, Pongs, FirstsNonEmpty, Conforming, EmptyOpen;
    var k := FirstOffence(frames, false, maxPayload);
    NoOffence(frames, false, false, maxPayload);
    FirstOffenceIs(frames, false, maxPayload);
    ConformingDelivers(frames, false, [], maxPayload);
    RefusedAfterAll(frames, false, [], maxPayload);
    assert [] + DataBytes(frames[..k]) == DataBytes(frames[..k]);
  }

  predicate ValidWires(frames: seq<Frame>, wires: seq<Wire>) {
    |wires| == |frames| && forall i :: 0 <= i < |frames| ==> ValidWire(wires[i], frames[i])
  }

  function EncodeAll(frames: seq<Frame>, wires: seq<Wire>): seq<byte>
    requires ValidWires(frames, wires)
  {
    if frames == [] then [] else EncodeClient(frames[0], wires[0]) + EncodeAll(frames[1..], wires[1..])
  }

  /** What a connection delivers, given what its first frames did. */
  function Resume(effect: Effect, tail: seq<byte>, maxPayload: int): Delivery {
    match effect
    case Stop(b, q, e) => Delivery(b, q, e)
    case Continue(b, q, fragments) => Prepend(b, q, Deliver(tail, fragments, maxPayload))
  }

  lemma ResumeAfter(b: seq<byte>, q: seq<byte>, effect: Effect, tail: seq<byte>, maxPayload: int)
    ensures Resume(After(b, q, effect), tail, maxPayload) == Prepend(b, q, Resume(effect, tail, maxPayload))
  {
    if effect.Continue? {
      PrependTwice(b, q, effect.bytes, effect.replies, Deliver(tail, effect.fragments, maxPayload));
    }
  }

  lemma {:induction false} DeliverEncoded(frames: seq<Frame>, wires: seq<Wire>, tail: seq<byte>, fragments: seq<byte>,
                                          maxPayload: int)
    requires ValidWires(frames, wires)
    ensures Deliver(EncodeAll(frames, wires) + tail, fragments, maxPayload)
         == Resume(OnFrames(frames, fragments, maxPayload), tail, maxPayload)
  {
    if frames == [] {
      assert EncodeAll(frames, wires) + tail == tail;
      PrependTwice([], [], [], [], Deliver(tail, fragments, maxPayload));
    } else {
      var more := EncodeAll(frames[1..], wires[1..]) + tail;
      assert EncodeAll(frames, wires) + tail == EncodeClient(frames[0], wires[0]) + more;
      ReadInvertsClient(frames[0], wires[0], more, maxPayload);
      if !TooLarge(frames[0], maxPayload) {
        match OnFrame(frames[0], fragments)
        case Stop(b, q, e) =>
        case Continue(b, q, fragments') =>
          DeliverEncoded(frames[1..], wires[1..], tail, fragments', maxPayload);
          ResumeAfter(b, q, OnFrames(frames[1..], fragments', maxPayload), tail, maxPayload);
      }
    }
  }

  /** The client's frames are all taken: no first fragment is empty, and no frame is over the limit. */
  predicate Accepted(frames: seq<Frame>, maxPayload: int) {
    FirstsNonEmpty(frames) && Within(frames, maxPayload)
  }

  /**
   However a conforming client masks and writes its frames: if no first fragment is
   empty and no frame is over the limit, the connection delivers the payloads of its
   binary messages in order and answers its pings in order.  Otherwise it delivers the
   messages that are complete, and answers the pings, before the first offending frame,
   and fails with the error for that frame.
   */
  lemma {:induction false} StreamReassembly(frames: seq<Frame>, wires: seq<Wire>, tail: seq<byte>, maxPayload: int)
    requires ValidWires(frames, wires) && Conforming(frames, false)
    ensures var k, d := FirstOffence(frames, false, maxPayload),
      Deliver(EncodeAll(frames, wires) + tail, [], maxPayload);
      && (k == |frames| <==> Accepted(frames, maxPayload))
      && (k == |frames| ==> d == Prepend(DataBytes(frames), Pongs(frames), Deliver(tail, [], maxPayload)))
      && (k < |frames| ==>
          d == Delivery(CompleteBytes([], frames[..k]), Pongs(frames[..k]), OffenceError(frames[k], maxPayload)))
      && (k < |frames| && !TooLarge(frames[k], maxPayload) ==> d.bytes == DataBytes(frames[..k]))
  {
    hide Deliver, FirstOffence, CompleteBytes, DataBytes, Pongs;
    var k := FirstOffence(frames, false, maxPayload);
    DeliverEncoded(frames, wires, tail, [], maxPayload);
    ConformingDelivers(frames, false, [], maxPayload);
    NoOffence(frames, false, false, maxPayload);
    assert [] + DataBytes(frames) == DataBytes(frames);
    if k < |frames| && !TooLarge(frames[k], maxPayload) {
      RefusedAfterAll(frames, false, [], maxPayload);
      assert [] + DataBytes(frames[..k]) == DataBytes(frames[..k]);
    }
  }

  /** With nothing after its frames, a conforming client is read to a clean end exactly if all are taken. */
  lemma {:induction false} CleanEnd(frames: seq<Frame>, wires: seq<Wire>, maxPayload: int)
    requires ValidWires(frames, wires) && Conforming(frames, false)
    ensures var d := Deliver(EncodeAll(frames, wires), [], maxPayload);
      && (d.end == EOF <==> Accepted(frames, maxPayload))
      && (Accepted(frames, maxPayload) ==> d == Delivery(DataBytes(frames), Pongs(frames), EOF))
  {
    StreamReassembly(frames, wires, [], maxPayload);
    assert EncodeAll(frames, wires) + [] == EncodeAll(frames, wires);
    assert Deliver([], [], maxPayload) == Delivery([], [], EOF);
  }

  // ---------------------------------------------------------------------------
  // Every kind of frame

  /** What a control frame may carry. */
  function AtMost125(payload: seq<byte>): (p: seq<byte>)
    ensures |p| <= 125 && p <= payload && (|payload| <= 125 ==> p == payload) && (|payload| > 125 ==> |p| == 125)
  {
    if |payload| <= 125 then payload else payload[..125]
  }

  /**
   What each frame within the limit does, in whatever state the connection is: a final
   binary frame is delivered, also in the middle of another message; the fragments of a
   message are delivered with the last one; pings and closes are answered; text and a
   continuation of nothing end the stream; all other opcodes are ignored.
   */
  lemma FrameByFrame(f: Frame, w: Wire, rest: seq<byte>, fragments: seq<byte>, maxPayload: int)
    requires ValidWire(w, f) && !TooLarge(f, maxPayload)
    ensures var d := Deliver(EncodeClient(f, w) + rest, fragments, maxPayload);
      && (f.opcode == 2 && f.fin ==> d == Prepend(f.payload, [], Deliver(rest, fragments, maxPayload)))
      && (f.opcode == 2 && !f.fin ==> d == Deliver(rest, fragments + f.payload, maxPayload))
      && (f.opcode == 0 && fragments == [] ==> d == Delivery([], [], UnsupportedFrame))
      && (f.opcode == 0 && fragments != [] && f.fin ==>
          d == Prepend(fragments + f.payload, [], Deliver(rest, [], maxPayload)))
      && (f.opcode == 0 && fragments != [] && !f.fin ==> d == Deliver(rest, fragments + f.payload, maxPayload))
      && (f.opcode == 1 ==> d == Delivery([], [], UnsupportedFrame))
      && (f.opcode == 8 ==> d == Delivery([], EncodeServer(Frame(true, CLOSE, AtMost125(f.payload))), EOF))
      && (f.opcode == 9 ==>
          d == Prepend([], EncodeServer(Frame(true, PONG, AtMost125(f.payload))), Deliver(rest, fragments, maxPayload)))
      && (f.opcode == 10 || 3 <= f.opcode <= 7 || f.opcode >= 11 ==> d == Deliver(rest, fragments, maxPayload))
  {
    hide EncodeClient, EncodeServer, ParseFrame;
    ReadInvertsClient(f, w, rest, maxPayload);
    var effect := OnFrame(f, fragments);
    if effect.Continue? {
      PrependNothing(Deliver(rest, effect.fragments, maxPayload));
    }
  }

  /** A close frame after them is echoed and ends the stream cleanly, whatever follows it. */
  lemma {:induction false} ClosedByClient(frames: seq<Frame>, wires: seq<Wire>, f: Frame, w: Wire, rest: seq<byte>,
                                          maxPayload: int)
    requires ValidWires(frames, wires) && Conforming(frames, false) && Accepted(frames, maxPayload)
    requires ValidWire(w, f) && f.opcode == CLOSE && !TooLarge(f, maxPayload)
    ensures Deliver(EncodeAll(frames, wires) + (EncodeClient(f, w) + rest), [], maxPayload) ==
      Delivery(DataBytes(frames), Pongs(frames) + EncodeServer(Frame(true, CLOSE, AtMost125(f.payload))), EOF)
  {
    hide Accepted, EncodeAll, EncodeClient, EncodeServer, DataBytes, Pongs, Conforming, Deliver;
    StreamReassembly(frames, wires, EncodeClient(f, w) + rest, maxPayload);
    FrameByFrame(f, w, rest, [], maxPayload);
  }

  /** A text frame after them ends the stream with an error, whatever follows it. */
  lemma {:induction false} TextRefused(frames: seq<Frame>, wires: seq<Wire>, f: Frame, w: Wire, rest: seq<byte>,
                                       maxPayload: int)
    requires ValidWires(frames, wires) && Conforming(frames, false) && Accepted(frames, maxPayload)
    requires ValidWire(w, f) && f.opcode == TEXT && !TooLarge(f, maxPayload)
    ensures Deliver(EncodeAll(frames, wires) + (EncodeClient(f, w) + rest), [], maxPayload)
         == Delivery(DataBytes(frames), Pongs(frames), UnsupportedFrame)
  {
    hide Accepted, EncodeAll, EncodeClient, EncodeServer, DataBytes, Pongs, Conforming, Deliver;
    StreamReassembly(frames, wires, EncodeClient(f, w) + rest, maxPayload);
    FrameByFrame(f, w, rest, [], maxPayload);
  }

  lemma PrependNothing(d: Delivery)
    ensures Prepend([], [], d) == d
  {
  }
}
