/**
 The encoders and decoders of protocol/codec.go as they run: positions stepping
 over the input in 64-bit arithmetic, loops appending to a growing slice.
 Every decoder meets the declarative `Parsed`.
 */
module Decoders {
  import opened Words
  import opened Codec

  // ---- encoders that loop ----

  method EncodePublishBatch(topic: Bytes, payloads: seq<Bytes>) returns (b: Bytes)
    ensures b == Encode(Batch(topic, payloads))
  {
    b := Blob(topic);
    b := b + PutU32(U32(|payloads|));
    ghost var head := b;
    for i := 0 to |payloads|
      invariant b == head + Blobs(payloads[..i])
    {
      b := b + PutU32(U32(|payloads[i]|));
      b := b + payloads[i];
      BlobsSnoc(payloads[..i], payloads[i]);
      assert payloads[..i + 1] == payloads[..i] + [payloads[i]];
    }
    assert payloads[..|payloads|] == payloads;
  }

  method EncodeTopics(names: seq<Bytes>) returns (b: Bytes)
    ensures b == Encode(Topics(names))
  {
    b := PutU32(U32(|names|));
    ghost var head := b;
    for i := 0 to |names|
      invariant b == head + Blobs(names[..i])
    {
      b := b + Blob(names[i]);
      BlobsSnoc(names[..i], names[i]);
      assert names[..i + 1] == names[..i] + [names[i]];
    }
    assert names[..|names|] == names;
  }

  // ---- decoders ----

  method DecodePublish(p: Slice) returns (r: Result<Body>)
    ensures r == Parsed(KPublish, p)
  {
    EveryPublish(p);
    var n := |p| as int64;
    if n < 4 {
      return Err(Truncated);
    }
    var tl := GetU32(p[0..4]) as int64;
    var pos: int64 := 4;
    if tl > n - pos {
      return Err(Truncated);
    }
    var topic := p[pos..pos + tl];
    pos := pos + tl;
    if n - pos < 4 {
      return Err(Truncated);
    }
    var ml := GetU32(p[pos..pos + 4]) as int64;
    pos := pos + 4;
    if ml > n - pos {
      return Err(Truncated);
    }
    r := Ok(Publish(topic, p[pos..pos + ml]));
    PublishFrom(p, topic, p[pos..pos + ml]);
    ParsedIff(KPublish, p, r.value);
  }

  method DecodeMessage(p: Slice) returns (r: Result<Body>)
    ensures r == Parsed(KMessage, p)
  {
    EveryMessage(p);
    var n := |p| as int64;
    if n < 12 {
      return Err(Truncated);
    }
    var offset := GetI64(p[0..8]);
    var ml := GetU32(p[8..12]) as int64;
    if ml > n - 12 {
      return Err(Truncated);
    }
    r := Ok(Message(offset, p[12..12 + ml]));
    I64Inverse(0, p[..8]);
    BlobFrom(p[8..]);
    assert p[8..][..4] == p[8..12] && p[8..][4..4 + ml] == p[12..12 + ml];
    assert Encode(r.value) == p[..12 + ml];
    ParsedIff(KMessage, p, r.value);
  }

  method UnmarshalOffset(b: Slice) returns (r: Result<Body>)
    ensures r == Parsed(KOffset, b)
  {
    if |b| < 8 {
      forall v ensures !Reads(KOffset, b, v) {
        if Reads(KOffset, b, v) { OffsetParts(b, v); }
      }
      return Err(Truncated);
    }
    r := Ok(Offset(GetI64(b[..8])));
    I64Inverse(0, b[..8]);
    ParsedIff(KOffset, b, r.value);
  }

  /** The count comes back as an `int`: negative for the upper half of the 32-bit range on a 32-bit platform. */
  method DecodePublishAck(width: Width, b: Slice) returns (r: Result<(int64, int)>)
    ensures forall v :: Reads(KAck, b, v) ==> r == Ok((v.base, Wrap(width, v.count as int)))
    ensures r.Ok? ==> exists v :: Reads(KAck, b, v)
    ensures r.Err? ==> r == Err(Truncated)
  {
    if |b| < 12 {
      forall v ensures !Reads(KAck, b, v) {
        if Reads(KAck, b, v) { AckParts(b, v); }
      }
      return Err(Truncated);
    }
    var count := GetU32(b[8..12]);
    ghost var ack := Ack(GetI64(b[0..8]), count);
    I64Inverse(0, b[..8]);
    U32Inverse(0, b[8..12]);
    assert Encode(ack) == b[..12];
    assert Reads(KAck, b, ack);
    forall v | Reads(KAck, b, v) ensures v == ack {
      PrefixFree(KAck, b, v, ack);
    }
    r := Ok((GetI64(b[0..8]), Wrap(width, count as int)));
  }

  /**
   The loops of codec.go:142-154 and 177-189: `count` blobs from `start` on, or those before
   the first one that is cut off; `pos` is where the list ends.
   */
  method DecodeList(p: Slice, start: int64, count: int64) returns (xs: seq<Bytes>, ok: bool, ghost pos: nat)
    requires 0 <= start as int <= |p| && 0 <= count < 0x1_0000_0000
    ensures ListAt(p, start as int, xs, pos) && |xs| <= count as int
    ensures if ok then |xs| == count as int else |xs| < count as int && Overruns(p, pos)
  {
    var n, at, i := |p| as int64, start, 0 as int64;
    xs, ok, pos := [], true, start as int;
    while i < count
      invariant 0 <= i <= count && |xs| == i as int && pos == at as int <= |p|
      invariant ListAt(p, start as int, xs, pos)
    {
      if n - at < 4 {
        ok := false;
        return;
      }
      var len := GetU32(p[at..at + 4]) as int64;
      if len > n - (at + 4) {
        ok := false;
        return;
      }
      ListStep(p, start as int, xs, pos, len as int);
      xs := xs + [p[at + 4..at + 4 + len]];
      at := at + 4 + len;
      pos := at as int;
      i := i + 1;
    }
  }

  method DecodePublishBatch(p: Slice) returns (r: Result<Body>)
    ensures r == Parsed(KBatch, p)
  {
    NoBatchHead(p);
    hide Parsed, ListAt, Overruns;
    var n := |p| as int64;
    if n < 4 {
      return Err(Truncated);
    }
    var tl := GetU32(p[0..4]) as int64;
    var pos: int64 := 4;
    if tl > n - pos {
      return Err(Truncated);
    }
    var topic := p[pos..pos + tl];
    pos := pos + tl;
    if n - pos < 4 {
      return Err(Truncated);
    }
    var count := GetU32(p[pos..pos + 4]) as int64;
    pos := pos + 4;
    if count < 0 || count > (n - pos) / 4 {
      return Err(Truncated);
    }
    var payloads, ok, end := DecodeList(p, pos, count);
    if !ok {
      NoBatchTail(p, topic, count as int, pos as int, payloads, end);
      return Err(Truncated);
    }
    BatchFrom(p, topic, count as int, pos as int, payloads, end);
    r := Ok(Batch(topic, payloads));
  }

  method DecodeTopics(p: Slice) returns (r: Result<Body>)
    ensures r == Parsed(KTopics, p)
  {
    hide Parsed, ListAt, Overruns;
    var n := |p| as int64;
    if n < 4 {
      NoTopicsHead(p);
      return Err(Truncated);
    }
    var count := GetU32(p[0..4]) as int64;
    var pos: int64 := 4;
    if count < 0 || count > (n - pos) / 4 {
      NoTopicsHead(p);
      return Err(Truncated);
    }
    var names, ok, end := DecodeList(p, pos, count);
    if !ok {
      NoTopicsTail(p, count as int, names, end);
      return Err(Truncated);
    }
    TopicsFrom(p, count as int, names, end);
    r := Ok(Topics(names));
  }

  /** The reader of codec.go:202 consumes its input field by field; `rest` is what it has left. */
  method DecodeError(p: Slice) returns (r: Result<Body>)
    ensures r == Parsed(KError, p)
  {
    EveryFailure(p);
    var rest: Bytes := p;
    if |rest| < 2 {
      return Err(Truncated);
    }
    var code := GetU16(rest[..2]);
    rest := rest[2..];
    if |rest| < 4 {
      return Err(Truncated);
    }
    assert rest[..4] == p[2..6];
    var mlen := GetU32(rest[..4]) as int64;
    rest := rest[4..];
    if mlen > |rest| as int64 {
      return Err(Truncated);
    }
    r := Ok(Failure(code, rest[..mlen]));
    U16Inverse(0, p[..2]);
    BlobFrom(p[2..]);
    assert p[2..][4..4 + mlen] == rest[..mlen];
    assert Encode(r.value) == p[..2] + p[2..][..4 + mlen] == p[..6 + mlen];
    ParsedIff(KError, p, r.value);
  }

  // ---- proof helpers: what every value readable off `p` must look like ----

  lemma EveryPublish(p: Bytes)
    ensures forall v :: Reads(KPublish, p, v) ==>
              |p| >= 8 + |v.topic| + |v.msg| && GetU32(p[..4]) as int == |v.topic|
              && GetU32(p[4 + |v.topic|..8 + |v.topic|]) as int == |v.msg|
  {
    forall v | Reads(KPublish, p, v)
      ensures |p| >= 8 + |v.topic| + |v.msg| && GetU32(p[..4]) as int == |v.topic|
      ensures GetU32(p[4 + |v.topic|..8 + |v.topic|]) as int == |v.msg|
    {
      PublishParts(p, v);
    }
  }

  lemma EveryMessage(p: Bytes)
    ensures forall v :: Reads(KMessage, p, v) ==>
              |p| >= 12 + |v.msg| && GetU32(p[8..12]) as int == |v.msg|
  {
    forall v | Reads(KMessage, p, v)
      ensures |p| >= 12 + |v.msg| && GetU32(p[8..12]) as int == |v.msg|
    {
      MessageParts(p, v);
    }
  }

  lemma EveryFailure(p: Bytes)
    ensures forall v :: Reads(KError, p, v) ==>
              |p| >= 6 + |v.text| && GetU32(p[2..6]) as int == |v.text|
  {
    forall v | Reads(KError, p, v)
      ensures |p| >= 6 + |v.text| && GetU32(p[2..6]) as int == |v.text|
    {
      FailureParts(p, v);
    }
  }

  lemma PublishFrom(p: Bytes, t: Bytes, m: Bytes)
    requires |p| >= 8 + |t| + |m| && GetU32(p[..4]) as int == |t| && p[4..4 + |t|] == t
    requires GetU32(p[4 + |t|..8 + |t|]) as int == |m| && p[8 + |t|..8 + |t| + |m|] == m
    ensures Reads(KPublish, p, Publish(t, m))
  {
    BlobFrom(p);
    var rest := p[4 + |t|..];
    assert rest[..4] == p[4 + |t|..8 + |t|] && rest[4..4 + |m|] == p[8 + |t|..8 + |t| + |m|];
    BlobFrom(rest);
    assert Encode(Publish(t, m)) == p[..4 + |t|] + rest[..4 + |m|] == p[..8 + |t| + |m|];
  }

  // ---- lists of blobs ----

  /** `p[start..pos]` is exactly the blobs of `xs`. */
  ghost predicate ListAt(p: Bytes, start: nat, xs: seq<Bytes>, pos: nat) {
    start <= pos <= |p| && |xs| < 0x1_0000_0000 && AllShort(xs) && Blobs(xs) == p[start..pos]
  }

  /** The blob at `pos` does not fit in what is left of `p`. */
  ghost predicate Overruns(p: Bytes, pos: nat)
    requires pos <= |p|
  {
    |p| < pos + 4 || GetU32(p[pos..pos + 4]) as int > |p| - pos - 4
  }

  /** One more blob extends the list and the stretch it covers. */
  lemma ListStep(p: Bytes, start: nat, xs: seq<Bytes>, pos: nat, n: nat)
    requires ListAt(p, start, xs, pos) && |xs| < 0xFFFF_FFFF
    requires pos + 4 + n <= |p| && GetU32(p[pos..pos + 4]) as int == n
    ensures ListAt(p, start, xs + [p[pos + 4..pos + 4 + n]], pos + 4 + n)
  {
    var x := p[pos + 4..pos + 4 + n];
    BlobsSnoc(xs, x);
    U32Inverse(0, p[pos..pos + 4]);
    assert p[start..pos + 4 + n] == p[start..pos] + p[pos..pos + 4] + x;
  }

  /** Every longer list starting at `start` extends `xs`, and its next blob lies inside `p`. */
  lemma ListGoesOn(p: Bytes, start: nat, xs: seq<Bytes>, pos: nat, ys: seq<Bytes>)
    requires ListAt(p, start, xs, pos) && |xs| < |ys| && AllShort(ys) && Blobs(ys) <= p[start..]
    ensures !Overruns(p, pos)
  {
    assert p[start..][..pos - start] == p[start..pos];
    NextBlob(p[start..], xs, ys);
    assert p[start..][pos - start..] == p[pos..];
    BlobAt(p[pos..], ys[|xs|]);
    assert p[pos..][..4] == p[pos..pos + 4];
  }

  lemma NextBlob(q: Bytes, xs: seq<Bytes>, ys: seq<Bytes>)
    requires AllShort(xs) && AllShort(ys) && |xs| < |ys| && Blobs(xs) <= q && Blobs(ys) <= q
    ensures Blob(ys[|xs|]) <= q[|Blobs(xs)|..]
  {
    BlobsAgree(q, xs, ys);
    BlobsNext(q, ys, |xs|);
  }

  ghost predicate BatchHead(p: Bytes, t: Bytes, count: nat, start: nat) {
    |p| >= start == 8 + |t| && GetU32(p[..4]) as int == |t| && p[4..start - 4] == t
    && GetU32(p[start - 4..start]) as int == count
  }

  /** The topic or the count is cut off, or the count promises more blobs than there are bytes for. */
  ghost predicate HeadBroken(p: Bytes) {
    |p| < 4 || (var tl := GetU32(p[..4]) as int;
                |p| < 8 + tl || 4 * GetU32(p[4 + tl..8 + tl]) as int > |p| - 8 - tl)
  }

  lemma NoBatchHead(p: Bytes)
    ensures HeadBroken(p) ==> Parsed(KBatch, p) == Err(Truncated)
  {
    if !HeadBroken(p) {
      return;
    }
    forall v ensures !Reads(KBatch, p, v) {
      if Reads(KBatch, p, v) { BatchParts(p, v); }
    }
  }

  lemma NoBatchTail(p: Bytes, t: Bytes, count: nat, start: nat, xs: seq<Bytes>, pos: nat)
    requires BatchHead(p, t, count, start) && ListAt(p, start, xs, pos) && |xs| < count
    requires Overruns(p, pos)
    ensures Parsed(KBatch, p) == Err(Truncated)
  {
    forall v ensures !Reads(KBatch, p, v) {
      if Reads(KBatch, p, v) {
        BatchParts(p, v);
        ListGoesOn(p, start, xs, pos, v.msgs);
      }
    }
  }

  lemma BatchFrom(p: Bytes, t: Bytes, count: nat, start: nat, xs: seq<Bytes>, pos: nat)
    requires BatchHead(p, t, count, start) && ListAt(p, start, xs, pos) && |xs| == count
    ensures Parsed(KBatch, p) == Ok(Batch(t, xs))
  {
    BlobFrom(p);
    U32Inverse(0, p[start - 4..start]);
    assert Encode(Batch(t, xs)) == p[..start - 4] + p[start - 4..start] + p[start..pos] == p[..pos];
    ParsedIff(KBatch, p, Batch(t, xs));
  }

  lemma NoTopicsHead(p: Bytes)
    requires |p| < 4 || 4 * GetU32(p[..4]) as int > |p| - 4
    ensures Parsed(KTopics, p) == Err(Truncated)
  {
    forall v ensures !Reads(KTopics, p, v) {
      if Reads(KTopics, p, v) { TopicsParts(p, v); }
    }
  }

  lemma NoTopicsTail(p: Bytes, count: nat, xs: seq<Bytes>, pos: nat)
    requires |p| >= 4 && GetU32(p[..4]) as int == count
    requires ListAt(p, 4, xs, pos) && |xs| < count && Overruns(p, pos)
    ensures Parsed(KTopics, p) == Err(Truncated)
  {
    forall v ensures !Reads(KTopics, p, v) {
      if Reads(KTopics, p, v) {
        TopicsParts(p, v);
        ListGoesOn(p, 4, xs, pos, v.names);
      }
    }
  }

  lemma TopicsFrom(p: Bytes, count: nat, xs: seq<Bytes>, pos: nat)
    requires |p| >= 4 && GetU32(p[..4]) as int == count
    requires ListAt(p, 4, xs, pos) && |xs| == count
    ensures Parsed(KTopics, p) == Ok(Topics(xs))
  {
    U32Inverse(0, p[..4]);
    assert Encode(Topics(xs)) == p[..4] + p[4..pos] == p[..pos];
    ParsedIff(KTopics, p, Topics(xs));
  }
}
