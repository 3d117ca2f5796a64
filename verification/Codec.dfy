/**
 The payload formats of protocol/codec.go: one encoder and one decoder each.

 A decoder is specified without describing how it walks the bytes: it must
 return the one value whose encoding is a prefix of the input, and fail with
 Truncated exactly when there is no such value (`Parsed`).
 */
module Codec {
  import opened Words

  /** A Go slice: its length is an `int`. */
  type Slice = b: Bytes | |b| <= MAX_INT64

  datatype Kind = KPublish | KBatch | KMessage | KTopics | KError | KOffset | KAck

  datatype Body =
    | Publish(topic: Bytes, msg: Bytes)
    | Batch(topic: Bytes, msgs: seq<Bytes>)
    | Message(offset: int64, msg: Bytes)
    | Topics(names: seq<Bytes>)
    | Failure(code: uint16, text: Bytes)
    | Offset(offset: int64)
    | Ack(base: int64, count: uint32)
  {
    function Kind(): Kind {
      match this
      case Publish(_, _) => KPublish
      case Batch(_, _) => KBatch
      case Message(_, _) => KMessage
      case Topics(_) => KTopics
      case Failure(_, _) => KError
      case Offset(_) => KOffset
      case Ack(_, _) => KAck
    }

    /** Every length the format stores in 32 bits really fits there. */
    predicate Fits() {
      match this
      case Publish(t, m) => Short(t) && Short(m)
      case Batch(t, ms) => Short(t) && AllShort(ms)
      case Message(_, m) => Short(m)
      case Topics(ns) => AllShort(ns)
      case Failure(_, m) => Short(m)
      case Offset(_) => true
      case Ack(_, _) => true
    }
  }

  predicate Short<T>(x: seq<T>) {
    |x| < 0x1_0000_0000
  }

  predicate AllShort(xs: seq<Bytes>) {
    Short(xs) && forall i :: 0 <= i < |xs| ==> Short(xs[i])
  }

  /** A 32-bit length and then the bytes; the length is cast, so a long blob is mislabelled. */
  function Blob(x: Bytes): (b: Bytes)
    ensures |b| == 4 + |x|
  {
    PutU32(U32(|x|)) + x
  }

  function Blobs(xs: seq<Bytes>): (b: Bytes)
    ensures |b| >= 4 * |xs|
  {
    if xs == [] then [] else Blobs(xs[..|xs| - 1]) + Blob(xs[|xs| - 1])
  }

  /** The bytes of a payload. */
  function Encode(v: Body): Bytes {
    match v
    case Publish(t, m) => Blob(t) + Blob(m)
    case Batch(t, ms) => Blob(t) + PutU32(U32(|ms|)) + Blobs(ms)
    case Message(off, m) => PutI64(off) + Blob(m)
    case Topics(ns) => PutU32(U32(|ns|)) + Blobs(ns)
    case Failure(code, m) => PutU16(code) + Blob(m)
    case Offset(off) => PutI64(off)
    case Ack(base, n) => PutI64(base) + PutU32(n)
  }

  // ---- what decoding means ----

  ghost predicate Reads(k: Kind, p: Bytes, v: Body) {
    v.Kind() == k && v.Fits() && Encode(v) <= p
  }

  /** The value whose encoding starts `p`, or Truncated when no encoding does. */
  ghost function Parsed(k: Kind, p: Bytes): Result<Body> {
    if exists v :: Reads(k, p, v) then
      var v :| Reads(k, p, v);
      Ok(v)
    else
      Err(Truncated)
  }

  /** No encoding of a kind is a prefix of another one, so the value `Parsed` picks is the only one. */
  lemma PrefixFree(k: Kind, p: Bytes, v: Body, w: Body)
    requires Reads(k, p, v) && Reads(k, p, w)
    ensures v == w
  {
    match v
    case Publish(_, _) =>
      PublishParts(p, v);
      PublishParts(p, w);
    case Batch(_, _) =>
      BatchesAgree(p, v, w);
    case Message(_, _) =>
      MessageParts(p, v);
      MessageParts(p, w);
    case Topics(_) =>
      TopicsAgree(p, v, w);
    case Failure(_, _) =>
      FailureParts(p, v);
      FailureParts(p, w);
    case Offset(_) =>
      OffsetParts(p, v);
      OffsetParts(p, w);
    case Ack(_, _) =>
      AckParts(p, v);
      AckParts(p, w);
  }

  lemma BatchesAgree(p: Bytes, v: Body, w: Body)
    requires Reads(KBatch, p, v) && Reads(KBatch, p, w)
    ensures v == w
  {
    BatchParts(p, v);
    BatchParts(p, w);
    BlobsAgree(p[8 + |v.topic|..], v.msgs, w.msgs);
  }

  lemma TopicsAgree(p: Bytes, v: Body, w: Body)
    requires Reads(KTopics, p, v) && Reads(KTopics, p, w)
    ensures v == w
  {
    TopicsParts(p, v);
    TopicsParts(p, w);
    BlobsAgree(p[4..], v.names, w.names);
  }

  lemma ParsedIff(k: Kind, p: Bytes, v: Body)
    ensures Parsed(k, p) == Ok(v) <==> Reads(k, p, v)
    ensures Parsed(k, p).Ok? || Parsed(k, p) == Err(Truncated)
  {
    if Reads(k, p, v) {
      var w := Parsed(k, p).value;
      PrefixFree(k, p, v, w);
    }
  }

  /** Decoding undoes encoding exactly when every length fits its field; what follows is ignored. */
  lemma RoundTripIff(v: Body, rest: Bytes)
    ensures Parsed(v.Kind(), Encode(v) + rest) == Ok(v) <==> v.Fits()
  {
    assert Encode(v) <= Encode(v) + rest;
    ParsedIff(v.Kind(), Encode(v) + rest, v);
  }

  /** Cutting even one byte off an encoding makes it undecodable. */
  lemma CutIsTruncated(v: Body, p: Bytes)
    requires v.Fits() && p < Encode(v)
    ensures Parsed(v.Kind(), p) == Err(Truncated)
  {
    if w :| Reads(v.Kind(), p, w) {
      PrefixFree(v.Kind(), Encode(v), v, w);
    }
  }

  // ---- length-prefixed pieces ----

  /** Bytes that start with `a + b` have `a` in front and `b` behind it. */
  lemma Shift(p: Bytes, a: Bytes, b: Bytes)
    requires a + b <= p
    ensures a <= p && p[..|a|] == a && b <= p[|a|..]
    ensures p[|a|..|a| + |b|] == b
  {
    assert a == (a + b)[..|a|] == p[..|a| + |b|][..|a|] == p[..|a|];
    assert b == (a + b)[|a|..] == p[..|a| + |b|][|a|..] == p[|a|..][..|b|];
  }

  /** A blob at the front of `p` is read back by its length field. */
  lemma BlobAt(p: Bytes, x: Bytes)
    requires Blob(x) <= p && Short(x)
    ensures |p| >= 4 + |x| && GetU32(p[..4]) as int == |x| && p[4..4 + |x|] == x
  {
    Shift(p, PutU32(U32(|x|)), x);
    U32Inverse(U32(|x|), p[..4]);
  }

  /** Conversely, a length field followed by that many bytes is a blob. */
  lemma BlobFrom(p: Bytes)
    requires |p| >= 4 && GetU32(p[..4]) as int <= |p| - 4
    ensures Blob(p[4..4 + GetU32(p[..4]) as int]) == p[..4 + GetU32(p[..4]) as int]
  {
    U32Inverse(0, p[..4]);
    var n := GetU32(p[..4]) as int;
    assert p[..4 + n] == p[..4] + p[4..4 + n];
  }

  lemma BlobsSnoc(xs: seq<Bytes>, x: Bytes)
    ensures Blobs(xs + [x]) == Blobs(xs) + Blob(x)
  {
    assert (xs + [x])[..|xs|] == xs;
  }

  lemma {:induction false} BlobsPrefix(xs: seq<Bytes>, k: nat)
    requires k <= |xs|
    ensures Blobs(xs[..k]) <= Blobs(xs)
  {
    if k < |xs| {
      BlobsPrefix(xs[..|xs| - 1], k);
      assert xs[..|xs| - 1][..k] == xs[..k];
    } else {
      assert xs[..k] == xs;
    }
  }

  /** The blob after the first `k` ones starts right behind them. */
  lemma BlobsNext(q: Bytes, xs: seq<Bytes>, k: nat)
    requires k < |xs| && Blobs(xs) <= q
    ensures Blobs(xs[..k]) <= q && Blob(xs[k]) <= q[|Blobs(xs[..k])|..]
  {
    BlobsPrefix(xs, k + 1);
    assert xs[..k + 1] == xs[..k] + [xs[k]];
    BlobsSnoc(xs[..k], xs[k]);
    Shift(q, Blobs(xs[..k]), Blob(xs[k]));
  }

  /** Two lists read off the same bytes agree as far as the shorter one goes. */
  lemma {:induction false} BlobsAgree(q: Bytes, xs: seq<Bytes>, ys: seq<Bytes>)
    requires AllShort(xs) && AllShort(ys) && |xs| <= |ys|
    requires Blobs(xs) <= q && Blobs(ys) <= q
    ensures xs == ys[..|xs|]
  {
    if xs != [] {
      var k := |xs| - 1;
      BlobsPrefix(xs, k);
      BlobsAgree(q, xs[..k], ys);
      SameNext(q, xs, ys, k);
    }
  }

  lemma SameNext(q: Bytes, xs: seq<Bytes>, ys: seq<Bytes>, k: nat)
    requires k < |xs| <= |ys| && xs[..k] == ys[..k] && Short(xs[k]) && Short(ys[k])
    requires Blobs(xs) <= q && Blobs(ys) <= q
    ensures xs[k] == ys[k]
  {
    BlobsNext(q, xs, k);
    BlobsNext(q, ys, k);
    BlobAt(q[|Blobs(xs[..k])|..], xs[k]);
    BlobAt(q[|Blobs(xs[..k])|..], ys[k]);
  }

  /** A blob behind a fixed head is read back at the head's length. */
  lemma BlobBehind(p: Bytes, head: Bytes, x: Bytes)
    requires head + Blob(x) <= p && Short(x)
    ensures |p| >= |head| + 4 + |x| && p[..|head|] == head
    ensures GetU32(p[|head|..|head| + 4]) as int == |x|
    ensures p[|head| + 4..|head| + 4 + |x|] == x
  {
    Shift(p, head, Blob(x));
    BlobAt(p[|head|..], x);
    assert p[|head|..][..4] == p[|head|..|head| + 4];
    assert p[|head|..][4..4 + |x|] == p[|head| + 4..|head| + 4 + |x|];
  }

  // ---- where each field of an encoding lies ----

  lemma PublishParts(p: Bytes, v: Body)
    requires Reads(KPublish, p, v)
    ensures |p| >= 8 + |v.topic| + |v.msg|
    ensures GetU32(p[..4]) as int == |v.topic| && p[4..4 + |v.topic|] == v.topic
    ensures GetU32(p[4 + |v.topic|..8 + |v.topic|]) as int == |v.msg|
    ensures p[8 + |v.topic|..8 + |v.topic| + |v.msg|] == v.msg
  {
    BlobBehind(p, Blob(v.topic), v.msg);
    BlobAt(p, v.topic);
  }

  lemma MessageParts(p: Bytes, v: Body)
    requires Reads(KMessage, p, v)
    ensures |p| >= 12 + |v.msg| && GetI64(p[..8]) == v.offset
    ensures GetU32(p[8..12]) as int == |v.msg| && p[12..12 + |v.msg|] == v.msg
  {
    BlobBehind(p, PutI64(v.offset), v.msg);
    I64Inverse(v.offset, p[..8]);
  }

  lemma FailureParts(p: Bytes, v: Body)
    requires Reads(KError, p, v)
    ensures |p| >= 6 + |v.text| && GetU16(p[..2]) == v.code
    ensures GetU32(p[2..6]) as int == |v.text| && p[6..6 + |v.text|] == v.text
  {
    BlobBehind(p, PutU16(v.code), v.text);
    U16Inverse(v.code, p[..2]);
  }

  lemma OffsetParts(p: Bytes, v: Body)
    requires Reads(KOffset, p, v)
    ensures |p| >= 8 && GetI64(p[..8]) == v.offset
  {
    I64Inverse(v.offset, p[..8]);
  }

  lemma AckParts(p: Bytes, v: Body)
    requires Reads(KAck, p, v)
    ensures |p| >= 12 && GetI64(p[..8]) == v.base && GetU32(p[8..12]) == v.count
  {
    Shift(p, PutI64(v.base), PutU32(v.count));
    I64Inverse(v.base, p[..8]);
    U32Inverse(v.count, p[8..12]);
  }

  lemma BatchParts(p: Bytes, v: Body)
    requires Reads(KBatch, p, v)
    ensures |p| >= 8 + |v.topic| && Blob(v.topic) <= p
    ensures GetU32(p[..4]) as int == |v.topic| && p[4..4 + |v.topic|] == v.topic
    ensures GetU32(p[4 + |v.topic|..8 + |v.topic|]) as int == |v.msgs|
    ensures Blobs(v.msgs) <= p[8 + |v.topic|..]
  {
    var head := Blob(v.topic) + PutU32(U32(|v.msgs|));
    Shift(p, head, Blobs(v.msgs));
    Shift(p, Blob(v.topic), PutU32(U32(|v.msgs|)));
    BlobAt(p, v.topic);
    U32Inverse(U32(|v.msgs|), p[..4]);
  }

  lemma TopicsParts(p: Bytes, v: Body)
    requires Reads(KTopics, p, v)
    ensures |p| >= 4 && GetU32(p[..4]) as int == |v.names|
    ensures Blobs(v.names) <= p[4..]
  {
    Shift(p, PutU32(U32(|v.names|)), Blobs(v.names));
    U32Inverse(U32(|v.names|), p[..4]);
  }
}
