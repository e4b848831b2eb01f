/** The multiplexed frame format: 1 opcode byte, 4 bytes of stream id, 4 bytes of length, payload. */
module Frames {
  import opened Bytes

  const FRAME_HEADER_LEN: nat := 9
  const MAX_FRAME_PAYLOAD: nat := 0x10_0000

  datatype Opcode = Open | OpenAck | OpenReject | Data | Close | Ping | UOpen | UData | UClose
  {
    function AsU8(): byte {
      match this
      case Open => 1
      case OpenAck => 2
      case OpenReject => 3
      case Data => 4
      case Close => 5
      case Ping => 6
      case UOpen => 7
      case UData => 8
      case UClose => 9
    }
  }

  function OpcodeFromU8(code: byte): Option<Opcode> {
    match code
    case 1 => Some(Open)
    case 2 => Some(OpenAck)
    case 3 => Some(OpenReject)
    case 4 => Some(Data)
    case 5 => Some(Close)
    case 6 => Some(Ping)
    case 7 => Some(UOpen)
    case 8 => Some(UData)
    case 9 => Some(UClose)
    case _ => None
  }

  datatype Frame = Frame(opcode: Opcode, streamId: u32, payload: seq<byte>)

  datatype FrameError =
    | Truncated(len: nat)
    | UnknownOpcode(code: byte)
    | LengthMismatch(declared: u32, actual: nat)
    | PayloadTooLarge(len: nat)

  datatype Decoded = Ok(frame: Frame) | Err(error: FrameError)

  /** A frame the encoder accepts. */
  predicate Fits(f: Frame) {
    |f.payload| <= MAX_FRAME_PAYLOAD
  }

  /** The bytes of an accepted frame. */
  function Wire(f: Frame): seq<byte>
    requires Fits(f)
  {
    [f.opcode.AsU8()] + Be32(f.streamId) + Be32(|f.payload|) + f.payload
  }

  function Decode(buf: seq<byte>): Decoded {
    if |buf| < FRAME_HEADER_LEN then Err(Truncated(|buf|)) else
    var opcode := OpcodeFromU8(buf[0]);
    if opcode.None? then Err(UnknownOpcode(buf[0])) else
    var streamId := FromBe32(buf[1], buf[2], buf[3], buf[4]);
    var declared := FromBe32(buf[5], buf[6], buf[7], buf[8]);
    var actual := |buf| - FRAME_HEADER_LEN;
    if declared != actual then Err(LengthMismatch(declared, actual))
    else if actual > MAX_FRAME_PAYLOAD then Err(PayloadTooLarge(actual))
    else Ok(Frame(opcode.value, streamId, buf[FRAME_HEADER_LEN..]))
  }

  /** Four bytes as a number, the most significant first. */
  function Number(a: byte, b: byte, c: byte, d: byte): nat {
    a * 16777216 + b * 65536 + c * 256 + d
  }

  /** The numbers of the opcodes, in the order of the protocol. */
  predicate Numbered(opcode: Opcode, code: byte) {
    (opcode.Open? && code == 1) || (opcode.OpenAck? && code == 2) || (opcode.OpenReject? && code == 3) ||
    (opcode.Data? && code == 4) || (opcode.Close? && code == 5) || (opcode.Ping? && code == 6) ||
    (opcode.UOpen? && code == 7) || (opcode.UData? && code == 8) || (opcode.UClose? && code == 9)
  }

  /** Byte by byte: opcode, stream id and length in network order, payload. */
  lemma Layout(f: Frame)
    requires Fits(f)
    ensures var w := Wire(f);
            && |w| == 9 + |f.payload| && Numbered(f.opcode, w[0]) && w[9..] == f.payload
            && Number(w[1], w[2], w[3], w[4]) == f.streamId && Number(w[5], w[6], w[7], w[8]) == |f.payload|
  {
    var w := Wire(f);
    BigEndian(f.streamId);
    BigEndian(|f.payload|);
    assert w[1..5] == Be32(f.streamId) && w[5..9] == Be32(|f.payload|);
  }

  lemma BigEndian(x: u32)
    ensures |Be32(x)| == 4 && Number(Be32(x)[0], Be32(x)[1], Be32(x)[2], Be32(x)[3]) == x
  {
  }

  /** Which buffers are refused, why, and in which order the reasons are looked for. */
  lemma Refusals(buf: seq<byte>)
    ensures var r := Decode(buf);
            && (|buf| < 9 ==> r == Err(Truncated(|buf|)))
            && (|buf| >= 9 && !(1 <= buf[0] <= 9) ==> r == Err(UnknownOpcode(buf[0])))
            && (|buf| >= 9 && 1 <= buf[0] <= 9 ==>
                  var declared := Number(buf[5], buf[6], buf[7], buf[8]);
                  && (declared != |buf| - 9 ==> r == Err(LengthMismatch(declared, |buf| - 9)))
                  && (declared == |buf| - 9 > 1048576 ==> r == Err(PayloadTooLarge(|buf| - 9)))
                  && (declared == |buf| - 9 <= 1048576 ==> r.Ok? && Numbered(r.frame.opcode, buf[0])))
  {
  }

  /** Decoding inverts encoding on every frame the encoder accepts. */
  lemma DecodeWire(f: Frame)
    requires Fits(f)
    ensures Decode(Wire(f)) == Ok(f)
  {
    hide Be32, FromBe32;
    Be32Inverse(f.streamId);
    Be32Inverse(|f.payload|);
    assert Wire(f)[FRAME_HEADER_LEN..] == f.payload;
  }

  /** Every accepted buffer is the encoding of the one frame it decodes to. */
  lemma WireDecode(buf: seq<byte>)
    requires Decode(buf).Ok?
    ensures Fits(Decode(buf).frame) && Wire(Decode(buf).frame) == buf
  {
    hide Be32, FromBe32;
    var f := Decode(buf).frame;
    assert buf[1..5] == Be32(f.streamId) by {
      FromBe32Inverse(buf[1], buf[2], buf[3], buf[4]);
    }
    assert buf[5..9] == Be32(|f.payload|) by {
      FromBe32Inverse(buf[5], buf[6], buf[7], buf[8]);
    }
    Pieces(buf);
  }

  lemma Pieces(buf: seq<byte>)
    requires |buf| >= FRAME_HEADER_LEN
    ensures buf == [buf[0]] + buf[1..5] + buf[5..9] + buf[9..]
  {
    assert buf[1..5] + buf[5..9] == buf[1..9];
    assert buf[1..9] + buf[9..] == buf[1..];
  }

  /** The codec is a bijection: accepted buffers are exactly the encodings, one per frame. */
  lemma CodecBijection(buf: seq<byte>, f: Frame)
    ensures Decode(buf) == Ok(f) <==> Fits(f) && Wire(f) == buf
  {
    if Decode(buf) == Ok(f) {
      WireDecode(buf);
    }
    if Fits(f) && Wire(f) == buf {
      DecodeWire(f);
    }
  }

  /** The caller's `Vec<u8>` an encoder appends to. */
  class OutBuf {
    var bytes: seq<byte>

    constructor ()
      ensures bytes == []
    {
      bytes := [];
    }
  }

  /** `Frame::encode`: refuses an oversized payload before it writes anything. */
  method Encode(f: Frame, out: OutBuf) returns (error: Option<FrameError>)
    modifies out
    ensures error.None? <==> Fits(f)
    ensures error.Some? ==> error.value == PayloadTooLarge(|f.payload|) && out.bytes == old(out.bytes)
    ensures error.None? ==> old(out.bytes) <= out.bytes && Decode(out.bytes[|old(out.bytes)|..]) == Ok(f)
  {
    if |f.payload| > MAX_FRAME_PAYLOAD {
      return Some(PayloadTooLarge(|f.payload|));
    }
    out.bytes := out.bytes + [f.opcode.AsU8()];
    out.bytes := out.bytes + Be32(f.streamId);
    out.bytes := out.bytes + Be32(|f.payload|);
    out.bytes := out.bytes + f.payload;
    assert out.bytes == old(out.bytes) + Wire(f);
    assert out.bytes[|old(out.bytes)|..] == Wire(f);
    DecodeWire(f);
    return None;
  }
}

/** The metadata an Open frame carries: stream kind, port and, for HTTP, the request head. */
module OpenMetas {
  import opened Bytes
  import Frames

  const MAX_HEAD: nat := Frames.MAX_FRAME_PAYLOAD - 7

  datatype StreamKind = Http | Tcp | Udp
  {
    function AsU8(): byte {
      match this case Http => 0 case Tcp => 1 case Udp => 2
    }
  }

  function KindFromU8(code: byte): Option<StreamKind> {
    match code case 0 => Some(Http) case 1 => Some(Tcp) case 2 => Some(Udp) case _ => None
  }

  datatype OpenMeta = OpenMeta(kind: StreamKind, port: u16, head: Option<seq<byte>>)
  {
    /** The invariant the encoder asserts in debug builds: a head iff the stream is HTTP. */
    predicate WellFormed() {
      head.Some? <==> kind.Http?
    }

    predicate Encodable() {
      head.Some? ==> |head.value| <= MAX_HEAD
    }
  }

  datatype MetaError = TooLarge(len: nat) | Truncated(need: nat, got: nat) | InvalidKind(code: byte)

  datatype Decoded = Ok(meta: OpenMeta) | Err(error: MetaError)

  function Prefix(m: OpenMeta): seq<byte> {
    [m.kind.AsU8()] + Be16(m.port)
  }

  function Wire(m: OpenMeta): seq<byte>
    requires m.Encodable()
  {
    Prefix(m) + if m.head.Some? then Be32(|m.head.value|) + m.head.value else []
  }

  function Decode(buf: seq<byte>): Decoded {
    if |buf| < 3 then Err(Truncated(3, |buf|)) else
    var kind := KindFromU8(buf[0]);
    if kind.None? then Err(InvalidKind(buf[0])) else
    var port := FromBe16(buf[1], buf[2]);
    if !kind.value.Http? then Ok(OpenMeta(kind.value, port, None)) else
    if |buf| < 7 then Err(Truncated(7, |buf|)) else
    var headLen := FromBe32(buf[3], buf[4], buf[5], buf[6]);
    if |buf| - 7 < headLen then Err(Truncated(headLen, |buf| - 7))
    else if headLen > MAX_HEAD then Err(TooLarge(headLen + 7))
    else Ok(OpenMeta(kind.value, port, Some(buf[7..7 + headLen])))
  }

  /** Two bytes as a number, the most significant first. */
  function Pair(a: byte, b: byte): u16 {
    a * 256 + b
  }

  /** Byte by byte: 0, 1 or 2 for the kind, port and head length in network order, head. */
  lemma Layout(m: OpenMeta)
    requires m.Encodable()
    ensures var w := Wire(m);
            && |w| == 3 + (if m.head.Some? then 4 + |m.head.value| else 0)
            && w[0] == (if m.kind == Http then 0 else if m.kind == Tcp then 1 else 2) && Pair(w[1], w[2]) == m.port
            && (m.head.Some? ==> Frames.Number(w[3], w[4], w[5], w[6]) == |m.head.value| <= 1048569 && w[7..] == m.head.value)
  {
    var w := Wire(m);
    assert w[..3] == Prefix(m);
    if m.head.Some? {
      Frames.BigEndian(|m.head.value|);
      assert w[3..7] == Be32(|m.head.value|);
    }
  }

  /** Which buffers are refused, and why; a head has a length of its own, and only an HTTP stream has a head. */
  lemma Refusals(buf: seq<byte>)
    ensures var r := Decode(buf);
            && (|buf| < 3 ==> r == Err(Truncated(3, |buf|)))
            && (|buf| >= 3 && buf[0] > 2 ==> r == Err(InvalidKind(buf[0])))
            && (|buf| >= 3 && buf[0] == 1 ==> r == Ok(OpenMeta(Tcp, Pair(buf[1], buf[2]), None)))
            && (|buf| >= 3 && buf[0] == 2 ==> r == Ok(OpenMeta(Udp, Pair(buf[1], buf[2]), None)))
            && (3 <= |buf| < 7 && buf[0] == 0 ==> r == Err(Truncated(7, |buf|)))
            && (|buf| >= 7 && buf[0] == 0 ==>
                  var n := Frames.Number(buf[3], buf[4], buf[5], buf[6]);
                  if n > |buf| - 7 then r == Err(Truncated(n, |buf| - 7))
                  else if n > 1048569 then r == Err(TooLarge(n + 7))
                  else r == Ok(OpenMeta(Http, Pair(buf[1], buf[2]), Some(buf[7..7 + n]))))
  {
  }

  /** A release build encodes ill-formed metadata too; the round trip then fails, and only then. */
  lemma RoundTripIffWellFormed(m: OpenMeta)
    requires m.Encodable()
    ensures Decode(Wire(m)) == Ok(m) <==> m.WellFormed()
  {
    hide Be32, FromBe32;
    var w := Wire(m);
    assert w[..3] == Prefix(m);
    assert w[0] == m.kind.AsU8() && [w[1], w[2]] == Be16(m.port);
    if m.head.Some? {
      Be32Inverse(|m.head.value|);
      assert w[3..7] == Be32(|m.head.value|);
      assert w[7..] == m.head.value;
      assert w[7..7 + |m.head.value|] == m.head.value;
    }
  }

  /** The decoder ignores what follows the metadata: an accepted buffer starts with its encoding. */
  lemma DecodedIsPrefix(buf: seq<byte>)
    requires Decode(buf).Ok?
    ensures var m := Decode(buf).meta; m.WellFormed() && m.Encodable() && Wire(m) <= buf
  {
    hide Be32, FromBe32;
    var m := Decode(buf).meta;
    assert buf[..3] == Prefix(m);
    if m.head.Some? {
      FromBe32Inverse(buf[3], buf[4], buf[5], buf[6]);
      assert buf[..7 + |m.head.value|] == buf[..3] + buf[3..7] + buf[7..7 + |m.head.value|];
      assert buf[3..7] == Be32(|m.head.value|);
    }
  }

  /** Whatever the metadata encoder accepts fits the Open frame that carries it. */
  lemma EncodedMetaFitsOpenFrame(m: OpenMeta, id: u32)
    requires m.Encodable()
    ensures Frames.Decode(Frames.Wire(Frames.Frame(Frames.Open, id, Wire(m)))) ==
            Frames.Ok(Frames.Frame(Frames.Open, id, Wire(m)))
  {
    Frames.DecodeWire(Frames.Frame(Frames.Open, id, Wire(m)));
  }

  /** `OpenMeta::encode`: unlike the frame encoder, it has already written kind and port when it refuses. */
  method Encode(m: OpenMeta, out: Frames.OutBuf) returns (error: Option<MetaError>)
    modifies out
    ensures error.None? <==> m.Encodable()
    ensures error.None? ==> out.bytes == old(out.bytes) + Wire(m)
    ensures error.Some? ==> error.value == TooLarge(|m.head.value| + 7) && out.bytes == old(out.bytes) + Prefix(m)
  {
    out.bytes := out.bytes + [m.kind.AsU8()];
    out.bytes := out.bytes + Be16(m.port);
    assert out.bytes == old(out.bytes) + Prefix(m);
    if m.head.Some? {
      if |m.head.value| > MAX_HEAD {
        return Some(TooLarge(|m.head.value| + 7));
      }
      out.bytes := out.bytes + Be32(|m.head.value|);
      out.bytes := out.bytes + m.head.value;
      assert out.bytes == old(out.bytes) + Wire(m);
    }
    return None;
  }
}

/** The data-channel framing of the peer-to-peer path. */
module P2pFrames {
  import opened Bytes
  import Frames

  const MAX_P2P_FRAME: nat := 0x10_0000

  datatype P2pFrame = P2pFrame(opcode: byte, requestId: u32, payload: seq<byte>)

  /** `encode_frame`: no size check, and the length field keeps only 32 bits. */
  function Encode(f: P2pFrame): seq<byte> {
    [f.opcode] + Be32(f.requestId) + Be32(|f.payload| % 0x1_0000_0000) + f.payload
  }

  function Decode(buf: seq<byte>): Option<P2pFrame> {
    if |buf| < 9 then None else
    var len := FromBe32(buf[5], buf[6], buf[7], buf[8]);
    if len > MAX_P2P_FRAME || |buf| < 9 + len then None
    else Some(P2pFrame(buf[0], FromBe32(buf[1], buf[2], buf[3], buf[4]), buf[9..9 + len]))
  }

  /** Byte by byte: opcode, request id and the low 32 bits of the length in network order, payload. */
  lemma Layout(f: P2pFrame)
    ensures var w := Encode(f);
            && |w| == 9 + |f.payload| && w[0] == f.opcode && w[9..] == f.payload
            && Frames.Number(w[1], w[2], w[3], w[4]) == f.requestId
            && Frames.Number(w[5], w[6], w[7], w[8]) == |f.payload| % 0x1_0000_0000
  {
    var w := Encode(f);
    Frames.BigEndian(f.requestId);
    Frames.BigEndian(|f.payload| % 0x1_0000_0000);
    assert w[1..5] == Be32(f.requestId) && w[5..9] == Be32(|f.payload| % 0x1_0000_0000);
  }

  /** A frame survives the trip exactly when its payload is at most 1 MiB. */
  lemma RoundTripIffWithinCap(f: P2pFrame)
    ensures Decode(Encode(f)) == Some(f) <==> |f.payload| <= 1048576
  {
    hide Be32, FromBe32;
    var len := |f.payload| % 0x1_0000_0000;
    Be32Inverse(f.requestId);
    Be32Inverse(len);
    DecodeLayout([f.opcode], Be32(f.requestId), Be32(len), f.payload);
    if |f.payload| <= MAX_P2P_FRAME {
      assert f.payload[..len] == f.payload;
    } else if len <= MAX_P2P_FRAME {
      assert |f.payload[..len]| < |f.payload|;
    }
  }

  /** Which buffers are refused: too short for a header, a length over 1 MiB, or fewer bytes than it says. More is no harm. */
  lemma Refusals(buf: seq<byte>)
    ensures Decode(buf).Some? <==>
            |buf| >= 9 && var n := Frames.Number(buf[5], buf[6], buf[7], buf[8]); n <= 1048576 && n <= |buf| - 9
  {
  }

  lemma DecodeLayout(op: seq<byte>, id: seq<byte>, l: seq<byte>, p: seq<byte>)
    requires |op| == 1 && |id| == 4 && |l| == 4
    ensures var len := FromBe32(l[0], l[1], l[2], l[3]);
            Decode(op + id + l + p) ==
            if len > MAX_P2P_FRAME || |p| < len then None
            else Some(P2pFrame(op[0], FromBe32(id[0], id[1], id[2], id[3]), p[..len]))
  {
    hide Be32, FromBe32;
    var buf := op + id + l + p;
    assert buf[0] == op[0];
    assert forall i :: 0 <= i < 4 ==> buf[1 + i] == id[i];
    assert forall i :: 0 <= i < 4 ==> buf[5 + i] == l[i];
    var len := FromBe32(l[0], l[1], l[2], l[3]);
    if len <= MAX_P2P_FRAME && len <= |p| {
      assert buf[9..9 + len] == p[..len];
    }
  }

  /** Trailing bytes are ignored: an accepted buffer starts with the encoding of its frame. */
  lemma DecodedIsPrefix(buf: seq<byte>)
    requires Decode(buf).Some?
    ensures Encode(Decode(buf).value) <= buf
  {
    hide Be32, FromBe32;
    var f := Decode(buf).value;
    var len := FromBe32(buf[5], buf[6], buf[7], buf[8]);
    assert Be32(f.requestId) == buf[1..5] by {
      FromBe32Inverse(buf[1], buf[2], buf[3], buf[4]);
    }
    assert Be32(|f.payload| % 0x1_0000_0000) == buf[5..9] by {
      assert |f.payload| % 0x1_0000_0000 == len;
      FromBe32Inverse(buf[5], buf[6], buf[7], buf[8]);
    }
    assert buf[..9 + len] == [buf[0]] + buf[1..5] + buf[5..9] + buf[9..9 + len];
  }
}
