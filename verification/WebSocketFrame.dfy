/**
 The frame format of sections 5.2 and 5.3 of RFC 6455: what a client may put on
 the wire, what `readFrame` makes of any byte string, and what `writeFrame` emits.
 */
module WebSocketFrame {
  import opened Bytes

  type Nibble = x: int | 0 <= x < 16

  const CONTINUATION: Nibble := 0x0
  const TEXT: Nibble := 0x1
  const BINARY: Nibble := 0x2
  const CLOSE: Nibble := 0x8
  const PING: Nibble := 0x9
  const PONG: Nibble := 0xA

  datatype Frame = Frame(fin: bool, opcode: Nibble, payload: seq<byte>)

  /** The three ways to write a payload length. */
  datatype LengthForm = Short | Medium | Long

  /** What a client chooses freely when it sends a frame: the reserved bits, the length form and the mask. */
  datatype Wire = Wire(reserved: int, form: LengthForm, key: seq<byte>)

  predicate Fits(form: LengthForm, n: nat) {
    match form
    case Short => n <= 125
    case Medium => n < 0x1_0000
    case Long => n < 0x8000_0000_0000_0000
  }

  predicate ValidWire(w: Wire, f: Frame) {
    0 <= w.reserved < 8 && |w.key| == 4 && Fits(w.form, |f.payload|)
  }

  /** The seven-bit length code and the extended length that follows it. */
  function LengthCode(form: LengthForm, n: nat): (code: int)
    requires Fits(form, n)
    ensures 0 <= code < 128
  {
    match form case Short => n case Medium => 126 case Long => 127
  }

  function LengthBytes(form: LengthForm, n: nat): seq<byte> {
    match form case Short => [] case Medium => BigEndian(2, n) case Long => BigEndian(8, n)
  }

  /** Section 5.3: byte `i` of the payload is combined with byte `i mod 4` of the key. */
  function Mask(p: seq<byte>, key: seq<byte>): (m: seq<byte>)
    requires |key| == 4
    ensures |m| == |p|
  {
    seq(|p|, i requires 0 <= i < |p| => Xor(p[i], key[i % 4]))
  }

  function FirstByte(f: Frame, reserved: int): byte
    requires 0 <= reserved < 8
  {
    (if f.fin then 128 else 0) + 16 * reserved + f.opcode
  }

  /** A masked frame as a client sends it. */
  function EncodeClient(f: Frame, w: Wire): seq<byte>
    requires ValidWire(w, f)
  {
    var n := |f.payload|;
    [FirstByte(f, w.reserved), 128 + LengthCode(w.form, n)] + LengthBytes(w.form, n) + w.key + Mask(f.payload, w.key)
  }

  // ---------------------------------------------------------------------------
  // readFrame

  /** The extended payload length announced by the seven-bit `code`, as a Go `int`. */
  function TakeLength(s: seq<byte>, code: nat): Taken<int64> {
    if code == 126 then
      var t := TakeFull(s, 2);
      if t.r.Err? then Taken(Err(t.r.error), t.rest) else Taken(Ok(Int64(FromBigEndian(t.r.value))), t.rest)
    else if code == 127 then
      var t := TakeFull(s, 8);
      if t.r.Err? then Taken(Err(t.r.error), t.rest) else Taken(Ok(Int64(FromBigEndian(t.r.value))), t.rest)
    else Taken(Ok(Int64(code)), s)
  }

  /** The mask key and the payload of `n` bytes, unmasked. */
  function TakePayload(s: seq<byte>, n: int): Taken<seq<byte>> {
    var k := TakeFull(s, 4);
    if k.r.Err? then k
    else if n < 0 then Taken(Err(NegativeLength), k.rest)
    else
      var p := TakeFull(k.rest, n);
      if p.r.Err? then p else Taken(Ok(Mask(p.r.value, k.r.value)), p.rest)
  }

  /** What `readFrame` makes of a byte string. */
  function ParseFrame(s: seq<byte>, maxPayload: int): (t: Taken<Frame>)
    ensures t.r.Ok? ==> |t.rest| < |s|
  {
    if |s| < 2 then Taken(Err(EOF), [])
    else if s[1] < 128 then Taken(Err(FrameNotMasked), s[2..])
    else
      var l := TakeLength(s[2..], s[1] - 128);
      if l.r.Err? then Taken(Err(l.r.error), l.rest)
      else if maxPayload > 0 && l.r.value > maxPayload then Taken(Err(MessageTooLarge), l.rest)
      else
        var p := TakePayload(l.rest, l.r.value);
        if p.r.Err? then Taken(Err(p.r.error), p.rest)
        else Taken(Ok(Frame(s[0] >= 128, s[0] % 16, p.r.value)), p.rest)
  }

  /** What masking does to each bit: it is flipped exactly if the bit of the key byte is set. */
  lemma MaskAt(p: seq<byte>, key: seq<byte>, i: nat, j: nat)
    requires |key| == 4 && i < |p| && j < 8
    ensures Bit(Mask(p, key)[i], j) == (Bit(p[i], j) + Bit(key[i % 4], j)) % 2
  {
    XorAt(p[i], key[i % 4], j);
  }

  lemma MaskTwice(p: seq<byte>, key: seq<byte>)
    requires |key| == 4
    ensures Mask(Mask(p, key), key) == p
  {
    forall i | 0 <= i < |p| ensures Mask(Mask(p, key), key)[i] == p[i] {
      XorTwice(p[i], key[i % 4]);
    }
  }

  lemma TakeLengthInverts(form: LengthForm, n: nat, rest: seq<byte>)
    requires Fits(form, n)
    ensures TakeLength(LengthBytes(form, n) + rest, LengthCode(form, n)) == Taken(Ok(n), rest)
  {
    Widths();
    TakeFullExact(LengthBytes(form, n), rest);
    match form
    case Short => assert LengthBytes(form, n) + rest == rest;
    case Medium => BigEndianRoundTrip(2, n);
    case Long => BigEndianRoundTrip(8, n);
  }

  lemma TakePayloadInverts(p: seq<byte>, key: seq<byte>, rest: seq<byte>)
    requires |key| == 4
    ensures TakePayload(key + Mask(p, key) + rest, |p|) == Taken(Ok(p), rest)
  {
    assert key + Mask(p, key) + rest == key + (Mask(p, key) + rest);
    TakeFullExact(key, Mask(p, key) + rest);
    TakeFullExact(Mask(p, key), rest);
    MaskTwice(p, key);
  }

  lemma EncodeShape(f: Frame, w: Wire, rest: seq<byte>)
    requires ValidWire(w, f)
    ensures var s := EncodeClient(f, w) + rest;
      && |s| >= 2 && s[0] == FirstByte(f, w.reserved) && s[1] == 128 + LengthCode(w.form, |f.payload|)
      && s[2..] == LengthBytes(w.form, |f.payload|) + (w.key + Mask(f.payload, w.key) + rest)
  {
  }

  /** `readFrame` inverts every masked encoding of a frame and consumes exactly that frame. */
  lemma ReadInvertsClient(f: Frame, w: Wire, rest: seq<byte>, maxPayload: int)
    requires ValidWire(w, f)
    ensures ParseFrame(EncodeClient(f, w) + rest, maxPayload) ==
            if maxPayload > 0 && |f.payload| > maxPayload
            then Taken(Err(MessageTooLarge), w.key + Mask(f.payload, w.key) + rest)
            else Taken(Ok(f), rest)
  {
    EncodeShape(f, w, rest);
    TakeLengthInverts(w.form, |f.payload|, w.key + Mask(f.payload, w.key) + rest);
    TakePayloadInverts(f.payload, w.key, rest);
    assert FirstByte(f, w.reserved) % 16 == f.opcode && (FirstByte(f, w.reserved) >= 128 <==> f.fin);
  }

  /** The length form and the extended length bytes that were read. */
  lemma TakeLengthOnly(s: seq<byte>, code: nat) returns (form: LengthForm)
    requires code < 128 && TakeLength(s, code).r.Ok? && TakeLength(s, code).r.value >= 0
    ensures var n := TakeLength(s, code).r.value;
      && Fits(form, n) && code == LengthCode(form, n)
      && s == LengthBytes(form, n) + TakeLength(s, code).rest
  {
    hide BigEndian, FromBigEndian, Pow256;
    Widths();
    form := if code == 126 then Medium else if code == 127 then Long else Short;
    var k := if code == 126 then 2 else if code == 127 then 8 else 0;
    BigEndianInverse(s[..k]);
    assert s == s[..k] + s[k..];
  }

  /** The mask key that was read. */
  lemma TakePayloadOnly(s: seq<byte>, n: int) returns (key: seq<byte>)
    requires TakePayload(s, n).r.Ok?
    ensures var p := TakePayload(s, n).r.value;
      |key| == 4 && |p| == n && s == key + Mask(p, key) + TakePayload(s, n).rest
  {
    key := s[..4];
    MaskTwice(s[4..][..n], key);
    assert s == key + s[4..][..n] + s[4..][n..];
  }

  lemma Assemble(s: seq<byte>, f: Frame, w: Wire, rest: seq<byte>)
    requires |s| >= 2 && ValidWire(w, f)
    requires s[0] == FirstByte(f, w.reserved) && s[1] == 128 + LengthCode(w.form, |f.payload|)
    requires s[2..] == LengthBytes(w.form, |f.payload|) + (w.key + Mask(f.payload, w.key) + rest)
    ensures s == EncodeClient(f, w) + rest
  {
    hide LengthBytes, LengthCode, Mask, FirstByte;
    assert s == [s[0], s[1]] + s[2..];
  }

  lemma FirstByteOnly(b: byte, payload: seq<byte>)
    ensures b == FirstByte(Frame(b >= 128, b % 16, payload), b / 16 % 8)
  {
  }

  /** `readFrame` accepts nothing but encodings of frames. */
  lemma ReadOnlyClient(s: seq<byte>, maxPayload: int) returns (w: Wire)
    requires ParseFrame(s, maxPayload).r.Ok?
    ensures var f := ParseFrame(s, maxPayload).r.value;
      && ValidWire(w, f) && (maxPayload > 0 ==> |f.payload| <= maxPayload)
      && s == EncodeClient(f, w) + ParseFrame(s, maxPayload).rest
  {
    hide TakeLength, TakePayload, FirstByte, LengthCode, LengthBytes, Mask;
    var l := TakeLength(s[2..], s[1] - 128);
    var p := TakePayload(l.rest, l.r.value);
    var f := Frame(s[0] >= 128, s[0] % 16, p.r.value);
    var key := TakePayloadOnly(l.rest, l.r.value);
    var form := TakeLengthOnly(s[2..], s[1] - 128);
    w := Wire(s[0] / 16 % 8, form, key);
    FirstByteOnly(s[0], f.payload);
    Assemble(s, f, w, p.rest);
  }

  /**
   Exactly when the length reaches the allocation as a negative number: the frame is
   masked, its eight length bytes have their top bit set, and its mask key is there.
   The limit does not prevent it.
   */
  lemma NegativeLengthExactly(s: seq<byte>, maxPayload: int)
    ensures ParseFrame(s, maxPayload).r == Err(NegativeLength) <==> |s| >= 14 && s[1] == 255 && s[2] >= 128
  {
    hide FromBigEndian, Pow256, Mask;
    if |s| >= 2 && s[1] >= 128 {
      NegativeLengthRead(s[2..], s[1] - 128);
    }
  }

  lemma NegativeLengthRead(s: seq<byte>, code: nat)
    requires code < 128
    ensures var l := TakeLength(s, code);
      && (l.r.Ok? ==> |l.rest| == |s| - (if code == 127 then 8 else if code == 126 then 2 else 0))
      && (l.r.Ok? && l.r.value < 0 <==> code == 127 && |s| >= 8 && s[0] >= 128)
      && (l.r.Err? ==> l.r.error != NegativeLength)
  {
    hide FromBigEndian, Pow256;
    Widths();
    if code == 127 && |s| >= 8 {
      BigEndianTopBit(s[..8]);
      BigEndianInverse(s[..8]);
      SevenBytes();
    } else if code == 126 && |s| >= 2 {
      BigEndianInverse(s[..2]);
    }
  }

  lemma SevenBytes()
    ensures 128 * Pow256(7) == 0x8000_0000_0000_0000
  {
    Widths();
    assert Pow256(8) == 256 * Pow256(7);
  }

  // ---------------------------------------------------------------------------
  // writeFrame

  /** The shortest length form that fits, as `writeFrame` chooses it. */
  function MinimalForm(n: nat): LengthForm {
    if n <= 125 then Short else if n <= 65535 then Medium else Long
  }

  function EncodeServerAs(f: Frame, form: LengthForm): seq<byte>
    requires Fits(form, |f.payload|)
  {
    [FirstByte(f, 0), LengthCode(form, |f.payload|)] + LengthBytes(form, |f.payload|) + f.payload
  }

  /** An unmasked frame as the gateway sends it; Go slices are shorter than 2^63. */
  function EncodeServer(f: Frame): seq<byte>
    requires |f.payload| < 0x8000_0000_0000_0000
  {
    EncodeServerAs(f, MinimalForm(|f.payload|))
  }

  /** How a client reads an unmasked frame. */
  function ParseServerFrame(s: seq<byte>): Taken<Frame> {
    if |s| < 2 then Taken(Err(EOF), [])
    else if s[1] >= 128 then Taken(Err(UnsupportedFrame), s[2..])
    else
      var l := TakeLength(s[2..], s[1]);
      if l.r.Err? then Taken(Err(l.r.error), l.rest)
      else if l.r.value < 0 then Taken(Err(NegativeLength), l.rest)
      else
        var p := TakeFull(l.rest, l.r.value);
        if p.r.Err? then Taken(Err(p.r.error), p.rest) else Taken(Ok(Frame(s[0] >= 128, s[0] % 16, p.r.value)), p.rest)
  }

  /**
   A client reads back the frame that was written and nothing more, and no other
   length form gives a shorter frame (section 5.2 asks for the minimal one).
   */
  lemma ServerFrameRoundTrip(f: Frame, rest: seq<byte>)
    requires |f.payload| < 0x8000_0000_0000_0000
    ensures ParseServerFrame(EncodeServer(f) + rest) == Taken(Ok(f), rest)
    ensures forall form | Fits(form, |f.payload|) && form != MinimalForm(|f.payload|) ::
              |EncodeServer(f)| < |EncodeServerAs(f, form)|
  {
    var n := |f.payload|;
    var s := EncodeServer(f) + rest;
    assert s[2..] == LengthBytes(MinimalForm(n), n) + (f.payload + rest);
    TakeLengthInverts(MinimalForm(n), n, f.payload + rest);
    TakeFullExact(f.payload, rest);
  }

  // ---------------------------------------------------------------------------
  // The examples of section 5.7

  const Hello: seq<byte> := [0x48, 0x65, 0x6c, 0x6c, 0x6f]

  /** Unmasked frames: a whole text message, its two fragments, and a ping. */
  lemma UnmaskedExamples()
    ensures EncodeServer(Frame(true, TEXT, Hello)) == [0x81, 0x05] + Hello
    ensures EncodeServer(Frame(false, TEXT, Hello[..3])) == [0x01, 0x03] + Hello[..3]
    ensures EncodeServer(Frame(true, CONTINUATION, Hello[3..])) == [0x80, 0x02] + Hello[3..]
    ensures EncodeServer(Frame(true, PING, Hello)) == [0x89, 0x05] + Hello
  {
  }

  /** Binary messages of 256 bytes and of 64 KiB. */
  lemma LongExamples(p: seq<byte>)
    ensures |p| == 0x100 ==> EncodeServer(Frame(true, BINARY, p)) == [0x82, 0x7E, 0x01, 0x00] + p
    ensures |p| == 0x1_0000 ==>
      EncodeServer(Frame(true, BINARY, p)) == [0x82, 0x7F, 0x00, 0x00, 0x00, 0x00, 0x00, 0x01, 0x00, 0x00] + p
  {
    if |p| == 0x1_0000 {
      assert BigEndian(2, 0) == [0, 0];
      assert BigEndian(5, 0) == [0, 0, 0, 0, 0];
      assert BigEndian(6, 1) == [0, 0, 0, 0, 0, 1];
      assert BigEndian(7, 256) == [0, 0, 0, 0, 0, 1, 0];
    }
  }

  lemma FirstUnmasked()
    ensures Xor(0x7f, 0x37) == 0x48 && Xor(0x9f, 0xfa) == 0x65
  {
    assert XorBits(4, 7, 3) == 4 && XorBits(4, 9, 15) == 6;
  }

  lemma OthersUnmasked()
    ensures Xor(0x4d, 0x21) == 0x6c && Xor(0x51, 0x3d) == 0x6c && Xor(0x58, 0x37) == 0x6f
  {
    assert XorBits(4, 4, 2) == 6 && XorBits(4, 5, 3) == 6;
  }

  lemma HelloUnmasked()
    ensures Mask([0x7f, 0x9f, 0x4d, 0x51, 0x58], [0x37, 0xfa, 0x21, 0x3d]) == Hello
  {
    hide Xor;
    FirstUnmasked();
    OthersUnmasked();
  }

  /** Masked frames: a text message, and a pong. */
  lemma MaskedExamples(maxPayload: int)
    requires maxPayload <= 0 || maxPayload >= 5
    ensures ParseFrame([0x81, 0x85, 0x37, 0xfa, 0x21, 0x3d, 0x7f, 0x9f, 0x4d, 0x51, 0x58], maxPayload)
         == Taken(Ok(Frame(true, TEXT, Hello)), [])
    ensures ParseFrame([0x8a, 0x85, 0x37, 0xfa, 0x21, 0x3d, 0x7f, 0x9f, 0x4d, 0x51, 0x58], maxPayload)
         == Taken(Ok(Frame(true, PONG, Hello)), [])
  {
    hide ParseFrame;
    HelloParsed(0x81, maxPayload);
    HelloParsed(0x8a, maxPayload);
  }

  lemma HelloParsed(first: byte, maxPayload: int)
    requires maxPayload <= 0 || maxPayload >= 5
    ensures ParseFrame([first, 0x85, 0x37, 0xfa, 0x21, 0x3d, 0x7f, 0x9f, 0x4d, 0x51, 0x58], maxPayload)
         == Taken(Ok(Frame(first >= 128, first % 16, Hello)), [])
  {
    hide Mask;
    HelloUnmasked();
    var key, masked: seq<byte> := [0x37, 0xfa, 0x21, 0x3d], [0x7f, 0x9f, 0x4d, 0x51, 0x58];
    var s: seq<byte> := [first, 0x85, 0x37, 0xfa, 0x21, 0x3d, 0x7f, 0x9f, 0x4d, 0x51, 0x58];
    assert s[2..] == key + (masked + []);
    TakeFullExact(key, masked + []);
    TakeFullExact(masked, []);
  }

  // ---------------------------------------------------------------------------
  // Frames that are refused

  /** An unmasked frame, such as `writeFrame` itself writes, is refused (section 5.1). */
  lemma UnmaskedRefused(s: seq<byte>, maxPayload: int)
    ensures ParseFrame(s, maxPayload).r == Err(FrameNotMasked) <==> |s| >= 2 && s[1] < 128
  {
    hide FromBigEndian, Mask;
  }

  predicate EndOfFile<T>(r: Result<T>) {
    r == Err(EOF) || r == Err(UnexpectedEOF)
  }

  lemma LengthBreaksOff(form: LengthForm, n: nat, s: seq<byte>)
    requires Fits(form, n) && |s| < |LengthBytes(form, n)|
    ensures EndOfFile(TakeLength(s, LengthCode(form, n)).r)
  {
    hide BigEndian, FromBigEndian;
  }

  lemma PayloadBreaksOff(s: seq<byte>, n: nat)
    requires |s| < 4 + n
    ensures EndOfFile(TakePayload(s, n).r)
  {
    hide Mask;
  }

  /** A frame that breaks off, and is not refused for its length before, is an end of file. */
  lemma FrameBreaksOff(f: Frame, w: Wire, n: nat, maxPayload: int)
    requires ValidWire(w, f) && n < |EncodeClient(f, w)| && !(maxPayload > 0 && |f.payload| > maxPayload)
    ensures EndOfFile(ParseFrame(EncodeClient(f, w)[..n], maxPayload).r)
  {
    hide TakeLength, TakePayload, Mask, LengthBytes, LengthCode, FirstByte, Fits;
    EncodeShape(f, w, []);
    var s, k := EncodeClient(f, w), |f.payload|;
    assert s + [] == s;
    var length, more := LengthBytes(w.form, k), w.key + Mask(f.payload, w.key) + [];
    if n >= 2 {
      assert s[..n][2..] == (length + more)[..n - 2];
      if n - 2 < |length| {
        LengthBreaksOff(w.form, k, s[..n][2..]);
      } else {
        assert s[..n][2..] == length + more[..n - 2 - |length|];
        TakeLengthInverts(w.form, k, more[..n - 2 - |length|]);
        PayloadBreaksOff(more[..n - 2 - |length|], k);
      }
    }
  }
}
