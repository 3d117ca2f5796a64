/**
 The direct writers of protocol/frame.go.  They never build the frame: they push
 its pieces into an io.Writer one by one.  Each is proved to send exactly the
 bytes of EncodeFrame over the matching encoder, cut at the point where the
 connection fails, and to send nothing when it refuses.

 `len` sums run in a Go `int` of 32 or 64 bits, so the size check is modelled
 with its wrap-around.
 */
module Writers {
  import opened Words
  import opened Codec
  import opened Frames
  import opened Store

  /** An io.Writer over a connection that carries `limit` bytes in all and then fails. */
  class Writer {
    const limit: nat
    var out: Bytes

    ghost predicate Valid()
      reads this
    {
      |out| <= limit
    }

    constructor (capacity: nat)
      ensures Valid() && out == [] && limit == capacity
    {
      limit := capacity;
      out := [];
    }

    method Write(b: Bytes) returns (ok: bool)
      requires Valid()
      modifies this
      ensures Valid() && out == Take(old(out) + b, limit)
      ensures ok <==> |old(out)| + |b| <= limit
    {
      ok := |b| <= limit - |out|;
      out := out + Take(b, limit - |out|);
    }
  }

  /**
   The outcome of a direct writer that should send `frame` unless `refuse` holds:
   nothing when it refuses, everything on success, and otherwise the part that
   still went through.
   */
  ghost predicate Wrote(refuse: bool, frame: Bytes, r: Result<()>, limit: nat, out0: Bytes, out1: Bytes) {
    if refuse then r == Err(TooLarge) && out1 == out0
    else
      out1 == Take(out0 + frame, limit) && r == if |out0| + |frame| <= limit then Ok(()) else Err(Io)
  }

  /** `b` is the piece of `frame` that starts at `n`. */
  ghost predicate PieceAt(frame: Bytes, n: nat, b: Bytes) {
    n + |b| <= |frame| && frame[n..n + |b|] == b
  }

  /** One `w.Write` of the next piece of `frame`, its first `n` bytes being out already. */
  method Push(w: Writer, b: Bytes, ghost frame: Bytes, ghost n: nat, ghost out0: Bytes) returns (ok: bool)
    requires w.Valid() && PieceAt(frame, n, b) && w.out == out0 + frame[..n]
    modifies w
    ensures w.Valid() && (ok ==> w.out == out0 + frame[..n + |b|])
    ensures !ok ==> Wrote(false, frame, Err(Io), w.limit, out0, w.out)
  {
    ok := w.Write(b);
    assert frame[..n + |b|] == frame[..n] + b;
    if ok {
      assert w.out == out0 + (frame[..n] + b);
    } else {
      assert frame == frame[..n] + b + frame[n + |b|..];
      assert (out0 + frame)[..w.limit] == (out0 + frame[..n] + b)[..w.limit];
    }
  }

  /** Two writes: the length of `x`, then `x`. */
  method PushField(w: Writer, x: Bytes, ghost frame: Bytes, ghost n: nat, ghost out0: Bytes) returns (ok: bool)
    requires w.Valid() && PieceAt(frame, n, Blob(x)) && w.out == out0 + frame[..n]
    modifies w
    ensures w.Valid() && (ok ==> n + 4 + |x| <= |frame| && w.out == out0 + frame[..n + 4 + |x|])
    ensures !ok ==> Wrote(false, frame, Err(Io), w.limit, out0, w.out)
  {
    HalvesAt(frame, n, PutU32(U32(|x|)), x);
    var meta := PutU32(U32(|x|));
    ok := Push(w, meta, frame, n, out0);
    if ok {
      ok := Push(w, x, frame, n + 4, out0);
    }
  }

  /** Everything has been sent. */
  lemma WroteAll(frame: Bytes, limit: nat, out0: Bytes, out1: Bytes)
    requires out1 == out0 + frame && |out1| <= limit
    ensures Wrote(false, frame, Ok(()), limit, out0, out1)
  {
  }

  method WriteFrame(w: Writer, op: byte, payload: Bytes) returns (r: Result<()>)
    requires w.Valid()
    modifies w
    ensures w.Valid()
    ensures Wrote(!Sendable(Frame(op, payload)), EncodeFrame(Frame(op, payload)), r, w.limit, old(w.out), w.out)
  {
    if |payload| > MAX_PAYLOAD {
      return Err(TooLarge);
    }
    var ok := w.Write(EncodeFrame(Frame(op, payload)));
    r := if ok then Ok(()) else Err(Io);
  }

  /** Writes the header only; `frame` is the frame it belongs to. */
  method WriteFrameHeader(w: Writer, op: byte, payloadLen: int, ghost frame: Bytes) returns (r: Result<()>)
    requires w.Valid() && PieceAt(frame, 0, Header(op, payloadLen))
    modifies w
    ensures w.Valid() && (r.Ok? ==> payloadLen <= MAX_PAYLOAD && w.out == old(w.out) + frame[..8])
    ensures r.Err? ==> Wrote(payloadLen > MAX_PAYLOAD, frame, r, w.limit, old(w.out), w.out)
  {
    if payloadLen > MAX_PAYLOAD {
      return Err(TooLarge);
    }
    assert w.out == w.out + frame[..0];
    var ok := Push(w, Header(op, payloadLen), frame, 0, w.out);
    r := if ok then Ok(()) else Err(Io);
  }

  // ---- messages ----

  /** Some payload is longer than a pushed message may be. */
  predicate TooLong(payloads: seq<Bytes>) {
    exists i :: 0 <= i < |payloads| && |payloads[i]| > MAX_MESSAGE
  }

  /** Some message of the row cannot be pushed. */
  predicate Oversize(ms: seq<Msg>) {
    TooLong(Payloads(ms))
  }

  lemma OversizeIff(ms: seq<Msg>)
    ensures Oversize(ms) <==> exists i :: 0 <= i < |ms| && |ms[i].payload| > MAX_MESSAGE
  {
    forall i | 0 <= i < |ms| ensures |Payloads(ms)[i]| == |ms[i].payload| {
    }
    if i :| 0 <= i < |ms| && |ms[i].payload| > MAX_MESSAGE {
      assert |Payloads(ms)[i]| > MAX_MESSAGE;
    }
  }

  /** The frame a message is pushed in. */
  function PushFrame(m: Msg): Frame {
    Frame(OP_MESSAGE, Encode(Message(m.offset, m.payload)))
  }

  function PushBytes(m: Msg): (b: Bytes)
    ensures |b| == 20 + |m.payload|
  {
    EncodeFrame(PushFrame(m))
  }

  lemma MessagePieces(offset: int64, payload: Bytes)
    ensures var f, meta := PushBytes(Msg(offset, payload)), PutI64(offset) + PutU32(U32(|payload|));
            PieceAt(f, 0, Header(OP_MESSAGE, 12 + |payload|)) && PieceAt(f, 8, meta) && PieceAt(f, 20, payload)
  {
    var f, meta := PushBytes(Msg(offset, payload)), PutI64(offset) + PutU32(U32(|payload|));
    assert f == Header(OP_MESSAGE, 12 + |payload|) + meta + payload;
  }

  method WriteMessage(w: Writer, offset: int64, payload: Bytes) returns (r: Result<()>)
    requires w.Valid()
    modifies w
    ensures w.Valid()
    ensures Wrote(|Encode(Message(offset, payload))| > MAX_PAYLOAD, PushBytes(Msg(offset, payload)), r,
                  w.limit, old(w.out), w.out)
  {
    if |payload| > MAX_MESSAGE {
      return Err(TooLarge);
    }
    ghost var frame := PushBytes(Msg(offset, payload));
    MessagePieces(offset, payload);
    r := WriteFrameHeader(w, OP_MESSAGE, 12 + |payload|, frame);
    if r.Err? {
      return;
    }
    var meta := PutI64(offset) + PutU32(U32(|payload|));
    var ok := Push(w, meta, frame, 8, old(w.out));
    if !ok {
      return Err(Io);
    }
    ok := Push(w, payload, frame, 20, old(w.out));
    assert frame[..20 + |payload|] == frame;
    r := if ok then Ok(()) else Err(Io);
  }

  // ---- publishing ----

  /** What the size check of a publish sees: the body length, in an `int` of that width. */
  function Measured(width: Width, v: Body): int {
    Wrap(width, |Encode(v)|)
  }

  /** The frame of `v` is the header, the topic field and then `rest`. */
  lemma TopicPieces(op: byte, v: Body, m: int, topic: Bytes, rest: Bytes, f: Bytes)
    requires Encode(v) == Blob(topic) + rest && f == EncodeFrame(Frame(op, Encode(v)))
    requires U32(m) == U32(|Encode(v)|)
    ensures PieceAt(f, 0, Header(op, m)) && PieceAt(f, 8, Blob(topic)) && PieceAt(f, 12 + |topic|, rest)
    ensures |f| == 12 + |topic| + |rest|
  {
    Parts3(Header(op, m), Blob(topic), rest, f);
  }

  lemma Parts3(a: Bytes, b: Bytes, c: Bytes, f: Bytes)
    requires f == a + (b + c)
    ensures PieceAt(f, 0, a) && PieceAt(f, |a|, b) && PieceAt(f, |a| + |b|, c)
  {
    assert f == a + b + c;
  }

  /** A blob that is a piece of `frame`, seen as its two pieces; the same for any two halves. */
  lemma HalvesAt(frame: Bytes, n: nat, a: Bytes, b: Bytes)
    requires PieceAt(frame, n, a + b)
    ensures PieceAt(frame, n, a) && PieceAt(frame, n + |a|, b)
  {
    assert frame[n..n + |a|] == (a + b)[..|a|];
    assert frame[n + |a|..n + |a| + |b|] == (a + b)[|a|..];
  }

  /** WritePublish and WritePublishNoAck: same body, different opcode. */
  method WritePublishOp(width: Width, w: Writer, op: byte, topic: Bytes, payload: Bytes) returns (r: Result<()>)
    requires w.Valid()
    modifies w
    ensures w.Valid()
    ensures Wrote(Measured(width, Publish(topic, payload)) > MAX_PAYLOAD,
                  EncodeFrame(Frame(op, Encode(Publish(topic, payload)))), r, w.limit, old(w.out), w.out)
  {
    var bodyLen := Wrap(width, 4 + |topic| + 4 + |payload|);
    ghost var frame := EncodeFrame(Frame(op, Encode(Publish(topic, payload))));
    PublishPieces(width, op, topic, payload, frame);
    hide Encode, EncodeFrame, PieceAt, PutU32, Blob, Wrap;
    if bodyLen > MAX_PAYLOAD {
      return Err(TooLarge);
    }
    r := WriteFrameHeader(w, op, bodyLen, frame);
    if r.Err? {
      return;
    }
    var ok := PushField(w, topic, frame, 8, old(w.out));
    if !ok {
      return Err(Io);
    }
    ok := PushField(w, payload, frame, 12 + |topic|, old(w.out));
    if !ok {
      return Err(Io);
    }
    assert frame[..|frame|] == frame;
    WroteAll(frame, w.limit, old(w.out), w.out);
    r := Ok(());
  }

  lemma PublishPieces(width: Width, op: byte, topic: Bytes, payload: Bytes, frame: Bytes)
    requires frame == EncodeFrame(Frame(op, Encode(Publish(topic, payload))))
    ensures var m := Wrap(width, 4 + |topic| + 4 + |payload|);
            m == Measured(width, Publish(topic, payload)) && PieceAt(frame, 0, Header(op, m))
    ensures PieceAt(frame, 8, Blob(topic)) && PieceAt(frame, 12 + |topic|, Blob(payload))
    ensures |frame| == 16 + |topic| + |payload|
  {
    var v := Publish(topic, payload);
    assert |Encode(v)| == 4 + |topic| + 4 + |payload|;
    WrapLow(width, |Encode(v)|);
    TopicPieces(op, v, Measured(width, v), topic, Blob(payload), frame);
  }

  // ---- batches ----

  /** The size loop of WritePublishBatch (frame.go:239-245). */
  method MeasureBatch(width: Width, topic: Bytes, payloads: seq<Bytes>) returns (r: Result<int>)
    ensures r == if TooLong(payloads) then Err(TooLarge)
                 else Ok(Measured(width, Batch(topic, payloads)))
  {
    var bodyLen := Wrap(width, 4 + |topic| + 4);
    MeasureNone(width, topic);
    assert payloads[..0] == [];
    for i := 0 to |payloads|
      invariant bodyLen == MeasuredSoFar(width, topic, payloads[..i])
      invariant forall j :: 0 <= j < i ==> |payloads[j]| <= MAX_MESSAGE
    {
      if |payloads[i]| > MAX_MESSAGE {
        return Err(TooLarge);
      }
      bodyLen := Wrap(width, bodyLen + (4 + |payloads[i]|));
      MeasureOne(width, topic, payloads[..i], payloads[i]);
      assert payloads[..i + 1] == payloads[..i] + [payloads[i]];
    }
    assert payloads[..|payloads|] == payloads;
    MeasureAll(width, topic, payloads);
    r := Ok(bodyLen);
  }

  function MeasuredSoFar(width: Width, topic: Bytes, done: seq<Bytes>): int {
    Wrap(width, 8 + |topic| + |Blobs(done)|)
  }

  lemma MeasureNone(width: Width, topic: Bytes)
    ensures Wrap(width, 4 + |topic| + 4) == MeasuredSoFar(width, topic, [])
  {
  }

  lemma MeasureAll(width: Width, topic: Bytes, done: seq<Bytes>)
    ensures MeasuredSoFar(width, topic, done) == Measured(width, Batch(topic, done))
  {
  }

  lemma MeasureOne(width: Width, topic: Bytes, done: seq<Bytes>, x: Bytes)
    ensures Wrap(width, MeasuredSoFar(width, topic, done) + (4 + |x|)) == MeasuredSoFar(width, topic, done + [x])
  {
    WrapAdd(width, 8 + |topic| + |Blobs(done)|, 4 + |x|);
    BlobsSnoc(done, x);
  }

  predicate RefusesBatch(width: Width, topic: Bytes, payloads: seq<Bytes>) {
    TooLong(payloads) || Measured(width, Batch(topic, payloads)) > MAX_PAYLOAD
  }

  function BatchFrame(topic: Bytes, payloads: seq<Bytes>): Bytes {
    EncodeFrame(Frame(OP_PUBLISH_BATCH, Encode(Batch(topic, payloads))))
  }

  method WritePublishBatch(width: Width, w: Writer, topic: Bytes, payloads: seq<Bytes>) returns (r: Result<()>)
    requires w.Valid()
    modifies w
    ensures w.Valid()
    ensures Wrote(RefusesBatch(width, topic, payloads), BatchFrame(topic, payloads), r, w.limit, old(w.out), w.out)
  {
    var size := MeasureBatch(width, topic, payloads);
    if size.Err? || size.value > MAX_PAYLOAD {
      return Err(TooLarge);
    }
    ghost var frame, at := BatchFrame(topic, payloads), 16 + |topic|;
    BatchPieces(width, topic, payloads);
    hide BatchFrame, PieceAt, PutU32, Blob, Blobs;
    r := WriteFrameHeader(w, OP_PUBLISH_BATCH, size.value, frame);
    if r.Err? {
      return;
    }
    var ok := PushField(w, topic, frame, 8, old(w.out));
    if !ok {
      return Err(Io);
    }
    var meta := PutU32(U32(|payloads|));
    ok := Push(w, meta, frame, at - 4, old(w.out));
    if !ok {
      return Err(Io);
    }
    r := WritePayloads(w, payloads, frame, at, old(w.out));
  }

  lemma BatchPieces(width: Width, topic: Bytes, payloads: seq<Bytes>)
    ensures var f, at := BatchFrame(topic, payloads), 16 + |topic|;
            PieceAt(f, 0, Header(OP_PUBLISH_BATCH, Measured(width, Batch(topic, payloads))))
            && PieceAt(f, 8, Blob(topic)) && PieceAt(f, at - 4, PutU32(U32(|payloads|)))
            && PieceAt(f, at, Blobs(payloads)) && |f| == at + |Blobs(payloads)|
  {
    var v, count, list := Batch(topic, payloads), PutU32(U32(|payloads|)), Blobs(payloads);
    assert Encode(v) == Blob(topic) + (count + list);
    WrapLow(width, |Encode(v)|);
    TopicPieces(OP_PUBLISH_BATCH, v, Measured(width, v), topic, count + list, BatchFrame(topic, payloads));
    HalvesAt(BatchFrame(topic, payloads), 12 + |topic|, count, list);
  }

  /** The sending loop of WritePublishBatch (frame.go:264-272). */
  method WritePayloads(w: Writer, payloads: seq<Bytes>, ghost frame: Bytes, ghost at: nat, ghost out0: Bytes)
    returns (r: Result<()>)
    requires w.Valid() && PieceAt(frame, at, Blobs(payloads)) && |frame| == at + |Blobs(payloads)|
    requires w.out == out0 + frame[..at]
    modifies w
    ensures w.Valid() && Wrote(false, frame, r, w.limit, out0, w.out)
  {
    ghost var pos := at;
    for i := 0 to |payloads|
      invariant w.Valid() && pos == at + |Blobs(payloads[..i])| <= |frame|
      invariant w.out == out0 + frame[..pos]
    {
      PayloadPieces(frame, at, payloads, i);
      var ok := PushField(w, payloads[i], frame, pos, out0);
      if !ok {
        return Err(Io);
      }
      pos := pos + 4 + |payloads[i]|;
    }
    assert payloads[..|payloads|] == payloads && frame[..pos] == frame;
    r := Ok(());
  }

  lemma PayloadPieces(frame: Bytes, at: nat, payloads: seq<Bytes>, i: nat)
    requires PieceAt(frame, at, Blobs(payloads)) && i < |payloads|
    ensures var pos := at + |Blobs(payloads[..i])|;
            pos + 4 + |payloads[i]| == at + |Blobs(payloads[..i + 1])| && PieceAt(frame, pos, Blob(payloads[i]))
  {
    hide Blobs, PieceAt, PutU32;
    BlobsPrefix(payloads, i + 1);
    BlobsSnoc(payloads[..i], payloads[i]);
    assert payloads[..i + 1] == payloads[..i] + [payloads[i]];
    PiecePrefix(frame, at, Blobs(payloads[..i + 1]), Blobs(payloads));
    HalvesAt(frame, at, Blobs(payloads[..i]), Blob(payloads[i]));
  }

  lemma PiecePrefix(frame: Bytes, n: nat, a: Bytes, b: Bytes)
    requires PieceAt(frame, n, b) && a <= b
    ensures PieceAt(frame, n, a)
  {
    assert frame[n..n + |a|] == b[..|a|];
  }

  // ---- when the size check is right ----

  /** The lengths a wrapped comparison with the limit decides rightly. */
  predicate DecidedRightly(width: Width, n: nat) {
    n <= MAX_PAYLOAD || MAX_PAYLOAD < n % Span(width) < Span(width) / 2
  }

  /**
   The check compares a wrapped length, so it is not always the intended one.  For a
   body of `n` bytes it decides as it should exactly when `n` is within the limit or
   the low bits of `n`, read as unsigned, stay above the limit and below the sign bit.
   */
  lemma SizeCheckExact(width: Width, n: nat)
    ensures (Wrap(width, n) > MAX_PAYLOAD <==> n > MAX_PAYLOAD)
            <==> DecidedRightly(width, n)
  {
    LowBits(width, n);
  }

  lemma LowBits(width: Width, n: nat)
    ensures Wrap(width, n) == if n % Span(width) < Span(width) / 2 then n % Span(width) else n % Span(width) - Span(width)
  {
    var m, k := n % Span(width), n / Span(width);
    if width.W32? {
      assert n == m + Span(width) * k;
    } else {
      assert n == m + Span(width) * k;
    }
    WrapShift(width, m, k);
    if m >= Span(width) / 2 {
      WrapShift(width, m - Span(width), 1);
    }
  }

  /** The callers' own bounds (broker.go:52, client.go:178 and 245) keep every single publish exact. */
  lemma PublishCheckExact(width: Width, topic: Bytes, payload: Bytes)
    requires |topic| <= 255 && |payload| <= MAX_MESSAGE
    ensures Measured(width, Publish(topic, payload)) > MAX_PAYLOAD <==> |Encode(Publish(topic, payload))| > MAX_PAYLOAD
  {
  }

  /**
   WritePublishBatch refuses exactly the bodies over the limit, just in case a payload is
   too long by itself or the summed length is one that the wrapped comparison gets right.
   */
  lemma BatchCheckIff(width: Width, topic: Bytes, payloads: seq<Bytes>)
    ensures var n := |Encode(Batch(topic, payloads))|;
            (RefusesBatch(width, topic, payloads) <==> n > MAX_PAYLOAD)
            <==> (TooLong(payloads) || DecidedRightly(width, n))
  {
    BatchLength(topic, payloads);
    BlobsNotShorter(payloads);
    SizeCheckExact(width, |Encode(Batch(topic, payloads))|);
  }

  /** In particular when the number of payloads keeps the sum in range. */
  lemma BatchCheckExact(width: Width, topic: Bytes, payloads: seq<Bytes>)
    requires 8 + |topic| + |payloads| * (MAX_MESSAGE + 4) < Span(width) / 2
    ensures RefusesBatch(width, topic, payloads) <==> |Encode(Batch(topic, payloads))| > MAX_PAYLOAD
  {
    BatchCheckIff(width, topic, payloads);
    if !TooLong(payloads) {
      BatchLength(topic, payloads);
      BlobsAtMost(payloads);
    }
  }

  lemma BatchLength(topic: Bytes, payloads: seq<Bytes>)
    ensures |Encode(Batch(topic, payloads))| == 8 + |topic| + |Blobs(payloads)|
  {
  }

  lemma {:induction false} BlobsAtMost(xs: seq<Bytes>)
    requires forall i :: 0 <= i < |xs| ==> |xs[i]| <= MAX_MESSAGE
    ensures |Blobs(xs)| <= |xs| * (MAX_MESSAGE + 4)
  {
    if xs != [] {
      BlobsAtMost(xs[..|xs| - 1]);
    }
  }

  /**
   Without that bound the 32-bit check fails: 129 payloads of the largest allowed size
   (they may share one array) add up past the sign bit, and the frame goes out although
   its body is over the limit, so the peer cannot accept it.
   */
  lemma OversizeBatchSlipsThrough(topic: Bytes, x: Bytes)
    requires |topic| == 1 && |x| == MAX_MESSAGE
    ensures var ps := seq(129, _ => x);
            !RefusesBatch(W32, topic, ps) && |Encode(Batch(topic, ps))| > MAX_PAYLOAD
            && NextFrame(BatchFrame(topic, ps)).0 == Err(TooLarge)
  {
    var ps := seq(129, _ => x);
    BlobsAllEqual(ps, MAX_MESSAGE);
    var f, n := BatchFrame(topic, ps), |Encode(Batch(topic, ps))|;
    BatchLength(topic, ps);
    assert n == 9 + 129 * (MAX_MESSAGE + 4) == 2164259841;
    LowBits(W32, n);
    assert f[..8] == Header(OP_PUBLISH_BATCH, n);
    HeaderFields(f, OP_PUBLISH_BATCH, n);
  }

  lemma {:induction false} BlobsAllEqual(xs: seq<Bytes>, n: nat)
    requires forall i :: 0 <= i < |xs| ==> |xs[i]| == n
    ensures |Blobs(xs)| == |xs| * (n + 4)
  {
    if xs != [] {
      BlobsAllEqual(xs[..|xs| - 1], n);
      assert |xs| * (n + 4) == (|xs| - 1) * (n + 4) + (n + 4);
    }
  }

  /** Whatever is not over the limit has every length in its 32-bit field: no cast loses bits, and it is read back. */
  lemma CastsLossless(v: Body)
    requires |Encode(v)| <= MAX_PAYLOAD
    ensures v.Fits() && Parsed(v.Kind(), Encode(v)) == Ok(v)
  {
    if v.Batch? {
      BatchLength(v.topic, v.msgs);
      BlobsNotShorter(v.msgs);
    } else if v.Topics? {
      BlobsNotShorter(v.names);
    }
    RoundTripIff(v, []);
    assert Encode(v) + [] == Encode(v);
  }

  lemma {:induction false} BlobsNotShorter(xs: seq<Bytes>)
    ensures forall i :: 0 <= i < |xs| ==> 4 + |xs[i]| <= |Blobs(xs)|
  {
    if xs != [] {
      var init := xs[..|xs| - 1];
      BlobsNotShorter(init);
      assert forall i :: 0 <= i < |init| ==> xs[i] == init[i];
    }
  }
}
