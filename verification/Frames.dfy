/**
 Frames (protocol/frame.go): an 8-byte header and a payload, read off a byte
 stream that may end anywhere.
 */
module Frames {
  import opened Words

  const MAGIC: uint16 := 0x4D51
  const VERSION: byte := 1
  const HEADER_LEN := 8
  const MAX_PAYLOAD := 16777216
  const MAX_MESSAGE := MAX_PAYLOAD - 12

  const OP_CREATE_TOPIC: byte := 1
  const OP_PUBLISH: byte := 2
  const OP_SUBSCRIBE: byte := 3
  const OP_MESSAGE: byte := 4
  const OP_ERROR: byte := 5
  const OP_PUBLISH_BATCH: byte := 6
  const OP_PUBLISH_NO_ACK: byte := 7
  const OP_LIST_TOPICS: byte := 8

  const CODE_UNKNOWN: uint16 := 0
  const CODE_CLOSED: uint16 := 1
  const CODE_TOPIC_EXISTS: uint16 := 2
  const CODE_TOPIC_NOT_FOUND: uint16 := 3
  const CODE_EMPTY_TOPIC_NAME: uint16 := 4
  const CODE_TOO_LARGE: uint16 := 5
  const CODE_OVERLOADED: uint16 := 6
  const CODE_TOPIC_NAME_TOO_LONG: uint16 := 7
  const CODE_INVALID_TOPIC_NAME: uint16 := 8
  const CODE_TOO_MANY_TOPICS: uint16 := 9

  datatype Frame = Frame(op: byte, payload: Bytes)

  predicate Sendable(f: Frame) {
    |f.payload| <= MAX_PAYLOAD
  }

  predicate AllSendable(fs: seq<Frame>) {
    forall i :: 0 <= i < |fs| ==> Sendable(fs[i])
  }

  /** The fixed header; the length is cast to 32 bits. */
  function Header(op: byte, n: int): (h: Bytes)
    ensures |h| == HEADER_LEN
  {
    PutU16(MAGIC) + [VERSION, op] + PutU32(U32(n))
  }

  function EncodeFrame(f: Frame): (b: Bytes)
    ensures |b| == HEADER_LEN + |f.payload|
  {
    Header(f.op, |f.payload|) + f.payload
  }

  /** The bytes of a run of frames. */
  function Wire(fs: seq<Frame>): Bytes {
    Concat(EncodeFrame, fs)
  }

  // ---- reading one frame ----

  /** What one ReadFrame returns on the unread bytes `s`, and what it leaves unread. */
  function NextFrame(s: Bytes): (Result<Frame>, Bytes) {
    if |s| < HEADER_LEN then (Err(Truncated), [])
    else if GetU16(s[0..2]) != MAGIC then (Err(InvalidMagic), s[8..])
    else if s[2] != VERSION then (Err(BadVersion), s[8..])
    else
      var n := GetU32(s[4..8]) as int;
      if n > MAX_PAYLOAD then (Err(TooLarge), s[8..])
      else if |s| - 8 < n then (Err(Truncated), [])
      else (Ok(Frame(s[3], s[8..8 + n])), s[8 + n..])
  }

  lemma HeaderFields(s: Bytes, op: byte, n: int)
    requires |s| >= 8 && s[..8] == Header(op, n)
    ensures GetU16(s[0..2]) == MAGIC && s[2] == VERSION && s[3] == op && GetU32(s[4..8]) == U32(n)
  {
    var h := Header(op, n);
    assert s[0..2] == h[0..2] == PutU16(MAGIC) && s[4..8] == h[4..8] == PutU32(U32(n));
    U16Inverse(MAGIC, s[0..2]);
    U32Inverse(U32(n), s[4..8]);
    assert s[2] == h[2] && s[3] == h[3];
  }

  /** ReadFrame accepts exactly the streams that begin with the encoding of a frame within the limit. */
  lemma NextFrameIff(s: Bytes, f: Frame)
    ensures NextFrame(s).0 == Ok(f) <==> Sendable(f) && EncodeFrame(f) <= s
    ensures NextFrame(s).0 == Ok(f) ==> s == EncodeFrame(f) + NextFrame(s).1
  {
    if Sendable(f) && EncodeFrame(f) <= s {
      var n := |f.payload|;
      assert s[..8] == EncodeFrame(f)[..8] == Header(f.op, n);
      HeaderFields(s, f.op, n);
      assert s[8..8 + n] == EncodeFrame(f)[8..8 + n] == f.payload;
    }
    if NextFrame(s).0 == Ok(f) {
      HeaderIs(s);
      assert s == s[..8] + s[8..8 + |f.payload|] + s[8 + |f.payload|..];
    }
  }

  /** Eight bytes that pass every check are the header of the length they carry. */
  lemma HeaderIs(s: Bytes)
    requires |s| >= 8 && GetU16(s[0..2]) == MAGIC && s[2] == VERSION
    ensures s[..8] == Header(s[3], GetU32(s[4..8]) as int)
  {
    U16Inverse(MAGIC, s[0..2]);
    U32Inverse(0, s[4..8]);
    assert s[..8] == s[0..2] + [s[2], s[3]] + s[4..8];
  }

  lemma NextFrameOn(f: Frame, rest: Bytes)
    requires Sendable(f)
    ensures NextFrame(EncodeFrame(f) + rest) == (Ok(f), rest)
  {
    var s := EncodeFrame(f) + rest;
    NextFrameIff(s, f);
    assert rest == s[|EncodeFrame(f)|..] == NextFrame(s).1;
  }

  /** A frame cut short is Truncated, wherever the cut falls. */
  lemma NextFrameCut(f: Frame, s: Bytes)
    requires Sendable(f) && s < EncodeFrame(f)
    ensures NextFrame(s) == (Err(Truncated), [])
  {
    if |s| >= 8 {
      assert s[..8] == EncodeFrame(f)[..8] == Header(f.op, |f.payload|);
      HeaderFields(s, f.op, |f.payload|);
    }
  }

  /** A header, byte by byte: "QM", version 1, the opcode and the length, low byte first. */
  lemma HeaderBytes(f: Frame)
    requires Sendable(f)
    ensures var b := EncodeFrame(f);
            b[..4] == [0x51, 0x4D, 1, f.op] && |f.payload| == Length(b) && b[8..] == f.payload
  {
    LittleEndian(MAGIC, U32(|f.payload|), 0);
    assert EncodeFrame(f)[..4] == PutU16(MAGIC) + [VERSION, f.op] == [0x51, 0x4D, 1, f.op];
    assert EncodeFrame(f)[4..8] == PutU32(U32(|f.payload|));
    assert forall i :: 0 <= i < 4 ==> EncodeFrame(f)[4 + i] == EncodeFrame(f)[4..8][i];
  }

  /** The number in a header's length field. */
  function Length(s: Bytes): int
    requires |s| >= 8
  {
    s[4] as int + 0x100 * s[5] as int + 0x1_0000 * s[6] as int + 0x100_0000 * s[7] as int
  }

  /** Which error a stream's next frame has, told from its bytes: exactly one of these, or a frame. */
  lemma NextFrameErrors(s: Bytes)
    ensures NextFrame(s).0 == Err(Truncated) <==>
            |s| < 8 || (s[..3] == [0x51, 0x4D, 1] && Length(s) <= 16777216 && |s| < 8 + Length(s))
    ensures NextFrame(s).0 == Err(InvalidMagic) <==> |s| >= 8 && s[..2] != [0x51, 0x4D]
    ensures NextFrame(s).0 == Err(BadVersion) <==> |s| >= 8 && s[..2] == [0x51, 0x4D] && s[2] != 1
    ensures NextFrame(s).0 == Err(TooLarge) <==> |s| >= 8 && s[..3] == [0x51, 0x4D, 1] && Length(s) > 16777216
    ensures NextFrame(s).0.Err? ==> NextFrame(s).0.error in {Truncated, InvalidMagic, BadVersion, TooLarge}
    ensures NextFrame(s).0.Ok? || NextFrame(s).0 == Err(Truncated) || NextFrame(s).1 == s[8..]
    ensures NextFrame(s).0 == Err(Truncated) ==> NextFrame(s).1 == []
  {
    if |s| >= 8 {
      assert s[..2] == s[0..2] && (s[..3] == [0x51, 0x4D, 1] <==> s[0] == 0x51 && s[1] == 0x4D && s[2] == 1);
    }
  }

  // ---- reading a stream ----

  /** Repeated ReadFrame until the first error: the frames obtained and that error. */
  function ReadAll(s: Bytes): (seq<Frame>, Error)
    decreases |s|
  {
    match NextFrame(s)
    case (Ok(f), rest) =>
      var (fs, e) := ReadAll(rest);
      ([f] + fs, e)
    case (Err(e), _) => ([], e)
  }

  /**
   Stream reassembly.  Whatever is sent, and wherever the stream is cut, reading
   yields exactly the frames that arrived whole, then Truncated.
   */
  lemma {:induction false} Reassemble(fs: seq<Frame>, s: Bytes) returns (k: nat)
    requires AllSendable(fs) && s <= Wire(fs)
    ensures k <= |fs| && ReadAll(s) == (fs[..k], Truncated)
    ensures Wire(fs[..k]) <= s
    ensures k < |fs| ==> |s| < |Wire(fs[..k + 1])|
  {
    hide NextFrame, EncodeFrame, Sendable;
    k := 0;
    if fs == [] {
      NothingLeft();
    } else {
      var e := EncodeFrame(fs[0]);
      PrefixSplit(s, e, Wire(fs[1..]));
      if |s| < |e| {
        NextFrameCut(fs[0], s);
        ConcatTake(EncodeFrame, fs, 0);
      } else {
        NextFrameOn(fs[0], s[|e|..]);
        var j := Reassemble(fs[1..], s[|e|..]);
        k := j + 1;
        ReassembleStep(fs, s, s[|e|..], j);
        ConcatTake(EncodeFrame, fs, j);
        PrefixJoin(s, e, Wire(fs[1..][..j]));
        if k < |fs| {
          ConcatTake(EncodeFrame, fs, k);
        }
      }
    }
  }

  lemma NothingLeft()
    ensures NextFrame([]) == (Err(Truncated), []) && Wire([]) == []
  {
  }

  lemma ReassembleStep(fs: seq<Frame>, s: Bytes, rest: Bytes, j: nat)
    requires fs != [] && j < |fs| && NextFrame(s) == (Ok(fs[0]), rest)
    requires ReadAll(rest) == (fs[1..][..j], Truncated)
    ensures ReadAll(s) == (fs[..j + 1], Truncated)
  {
    NextFrameIff(s, fs[0]);
    assert fs[..j + 1] == [fs[0]] + fs[1..][..j];
  }

  /** Uncut, everything comes back. */
  lemma {:induction false} ReassembleWhole(fs: seq<Frame>)
    requires AllSendable(fs)
    ensures ReadAll(Wire(fs)) == (fs, Truncated)
  {
    if fs == [] {
      assert Wire(fs) == [];
    } else {
      NextFrameOn(fs[0], Wire(fs[1..]));
      ReassembleWhole(fs[1..]);
      assert [fs[0]] + fs[1..] == fs;
    }
  }

  // ---- the reader itself ----

  /** A buffered reader over a connection whose remaining bytes are `data`, after which it is at EOF. */
  class Stream {
    var data: Bytes

    constructor (bytes: Bytes)
      ensures data == bytes
    {
      data := bytes;
    }

    /** io.ReadFull: exactly `n` bytes, or whatever was left and an EOF error. */
    method ReadFull(n: nat) returns (b: Bytes, ok: bool)
      modifies this
      ensures ok <==> n <= |old(data)|
      ensures ok ==> b == old(data)[..n] && data == old(data)[n..]
      ensures !ok ==> data == []
    {
      ok := n <= |data|;
      b := Take(data, n);
      data := data[|b|..];
    }

    method ReadHeader() returns (r: Result<(byte, nat)>)
      modifies this
      ensures r.Ok? ==> var s := old(data);
                        |s| >= 8 && GetU16(s[0..2]) == MAGIC && s[2] == VERSION && GetU32(s[4..8]) as int <= MAX_PAYLOAD
                        && r.value == (s[3], GetU32(s[4..8]) as int) && data == s[8..]
      ensures r.Err? ==> NextFrame(old(data)) == (Err(r.error), data)
    {
      var hdr, ok := ReadFull(HEADER_LEN);
      if !ok {
        return Err(Truncated);
      }
      assert hdr[0..2] == old(data)[0..2] && hdr[4..8] == old(data)[4..8];
      if GetU16(hdr[0..2]) != MAGIC {
        return Err(InvalidMagic);
      }
      if hdr[2] != VERSION {
        return Err(BadVersion);
      }
      var op := hdr[3];
      // compared as a uint32, before any conversion to int
      var payloadLen := GetU32(hdr[4..8]);
      if payloadLen > MAX_PAYLOAD as uint32 {
        return Err(TooLarge);
      }
      return Ok((op, payloadLen as int));
    }

    method ReadFrame() returns (r: Result<Frame>)
      modifies this
      ensures (r, data) == NextFrame(old(data))
    {
      var h := ReadHeader();
      if h.Err? {
        return Err(h.error);
      }
      var payload, ok := ReadFull(h.value.1);
      if !ok {
        return Err(Truncated);
      }
      assert old(data)[8..][..h.value.1] == old(data)[8..8 + h.value.1];
      return Ok(Frame(h.value.0, payload));
    }
  }
}
