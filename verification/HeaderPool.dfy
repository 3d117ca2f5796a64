/**
 WriteMessageBatch (protocol/frame.go:142-179) on the heap: the 20-byte headers
 are arrays borrowed from a shared pool and filled in place, and the vectored
 write reads them only at the end, so aliasing decides what goes out.
 */
module HeaderPool {
  import opened Words
  import opened Codec
  import opened Frames
  import opened Store
  import opened Writers

  const POOLED_LEN := 20

  /** Frame header, offset and length of a pushed message of `n` bytes: what a pooled header must hold. */
  function Head(offset: int64, n: int): (h: Bytes)
    ensures |h| == POOLED_LEN
  {
    Header(OP_MESSAGE, 12 + n) + PutI64(offset) + PutU32(U32(n))
  }

  lemma PushIsHeadAndPayload(m: Msg)
    ensures PushBytes(m) == Head(m.offset, |m.payload|) + m.payload
  {
    var h, a, b := Header(OP_MESSAGE, 12 + |m.payload|), PutI64(m.offset), PutU32(U32(|m.payload|));
    assert h + (a + (b + m.payload)) == h + a + b + m.payload;
  }

  /** The frames of a batch, one after the other. */
  function PushAll(ms: seq<Msg>): Bytes {
    Concat(PushBytes, ms)
  }

  function Zip(offsets: seq<int64>, payloads: seq<Bytes>): seq<Msg>
    requires |offsets| == |payloads|
  {
    seq(|offsets|, i requires 0 <= i < |offsets| => Msg(offsets[i], payloads[i]))
  }

  /** sync.Pool: Get hands out some idle header or a new one, Put may keep or drop what it is given. */
  class Pool {
    var idle: set<array<byte>>
    ghost var lent: set<array<byte>>

    ghost predicate Valid()
      reads this
    {
      idle !! lent && (forall h :: h in idle ==> h.Length == POOLED_LEN)
    }

    constructor ()
      ensures Valid() && idle == {} && lent == {}
    {
      idle, lent := {}, {};
    }

    method Get() returns (h: array<byte>)
      requires Valid()
      modifies this
      ensures Valid() && h.Length == POOLED_LEN && h !in old(lent) && lent == old(lent) + {h}
      ensures idle == old(idle) - {h} && (h in old(idle) || fresh(h))
    {
      if idle != {} {
        var reuse: bool := *;
        if reuse {
          h :| h in idle;
          idle := idle - {h};
          lent := lent + {h};
          return;
        }
      }
      h := new byte[POOLED_LEN];
      lent := lent + {h};
    }

    method Put(h: array<byte>)
      requires Valid() && h in lent && h.Length == POOLED_LEN
      modifies this
      ensures Valid() && lent == old(lent) - {h} && old(idle) <= idle <= old(idle) + {h}
    {
      lent := lent - {h};
      var keep: bool := *;
      if keep {
        idle := idle + {h};
      }
    }
  }

  /** binary.LittleEndian.PutUintNN(h[at:], ...) */
  method PutBytes(h: array<byte>, at: nat, b: Bytes)
    requires at + |b| <= h.Length
    modifies h
    ensures forall k :: at <= k < at + |b| ==> h[k] == b[k - at]
    ensures forall k :: 0 <= k < h.Length && !(at <= k < at + |b|) ==> h[k] == old(h[k])
  {
    forall k | at <= k < at + |b| {
      h[k] := b[k - at];
    }
  }

  /** Fill a borrowed header; nothing of what it held before survives. */
  method Fill(h: array<byte>, offset: int64, n: int)
    requires h.Length == POOLED_LEN
    modifies h
    ensures h[..] == Head(offset, n)
  {
    PutBytes(h, 0, PutU16(MAGIC));
    h[2] := VERSION;
    h[3] := OP_MESSAGE;
    PutBytes(h, 4, PutU32(U32(12 + n)));
    PutBytes(h, 8, PutI64(offset));
    PutBytes(h, 16, PutU32(U32(n)));
    var want := Head(offset, n);
    assert want[..8] == Header(OP_MESSAGE, 12 + n) && want[8..16] == PutI64(offset) && want[16..] == PutU32(U32(n));
    forall k | 0 <= k < POOLED_LEN ensures h[k] == want[k] {
    }
  }

  /** Two slices queued for the vectored write: a borrowed header, then a payload by reference. */
  datatype Buf = Buf(h: array<byte>, payload: Bytes)

  /** The headers queued are those of the first messages, filled in, and all different. */
  ghost predicate Queued(bufs: seq<Buf>, hdrs: seq<array<byte>>, heads: seq<Bytes>, ms: seq<Msg>)
    reads hdrs
  {
    |bufs| == |hdrs| <= |ms| == |heads|
    && (forall i, j :: 0 <= i < j < |hdrs| ==> hdrs[i] != hdrs[j])
    && (forall i :: 0 <= i < |hdrs| ==> bufs[i] == Buf(hdrs[i], ms[i].payload))
    && Filled(hdrs, heads[..|hdrs|])
  }

  /** What the headers of a batch must hold. */
  function Heads(ms: seq<Msg>): (hs: seq<Bytes>)
    ensures |hs| == |ms|
  {
    if ms == [] then [] else Heads(ms[..|ms| - 1]) + [Head(ms[|ms| - 1].offset, |ms[|ms| - 1].payload|)]
  }

  lemma {:induction false} HeadsAt(ms: seq<Msg>, k: nat)
    requires k < |ms|
    ensures Heads(ms)[k] == Head(ms[k].offset, |ms[k].payload|)
  {
    if k < |ms| - 1 {
      HeadsAt(ms[..|ms| - 1], k);
    }
  }

  ghost predicate Filled(hdrs: seq<array<byte>>, contents: seq<Bytes>)
    reads hdrs
  {
    |contents| == |hdrs| && forall i :: 0 <= i < |hdrs| ==> hdrs[i][..] == contents[i]
  }

  /** Take a header from the pool and fill it for `m` (frame.go:164-171); the ones in use keep their contents. */
  method Borrow(pool: Pool, m: Msg, hdrs: seq<array<byte>>, ghost ms: seq<Msg>) returns (h: array<byte>)
    requires pool.Valid() && (forall g :: g in hdrs ==> g in pool.lent)
    requires |hdrs| < |ms| && m == ms[|hdrs|] && Filled(hdrs, Heads(ms)[..|hdrs|])
    modifies pool, pool.idle
    ensures pool.Valid() && h.Length == POOLED_LEN && Filled(hdrs + [h], Heads(ms)[..|hdrs| + 1])
    ensures h !in old(pool.lent) && pool.lent == old(pool.lent) + {h}
    ensures pool.idle == old(pool.idle) - {h} && (h in old(pool.idle) || fresh(h))
  {
    h := pool.Get();
    Fill(h, m.offset, |m.payload|);
    assert forall i :: 0 <= i < |hdrs| ==> hdrs[i] in hdrs && hdrs[i] != h;
    HeadsAt(ms, |hdrs|);
  }

  /**
   The whole call.  Every header is back with the pool, on the refusing path too;
   headers lent to concurrent calls are not in the frame, so they are untouched; and
   the bytes sent are the frames of the arguments, whatever the pool held.
   */
  method WriteMessageBatch(pool: Pool, w: Writer, offsets: seq<int64>, payloads: seq<Bytes>) returns (r: Result<()>)
    requires pool.Valid() && w.Valid()
    modifies pool, pool.idle, w
    ensures pool.Valid() && pool.lent == old(pool.lent) && fresh(pool.idle - old(pool.idle))
    ensures w.Valid()
    ensures |offsets| != |payloads| ==> r == Err(Mismatch) && w.out == old(w.out)
    ensures |offsets| == |payloads| ==>
              Wrote(TooLong(payloads), PushAll(Zip(offsets, payloads)), r,
                    w.limit, old(w.out), w.out)
  {
    if |offsets| != |payloads| {
      return Err(Mismatch);
    }
    if |offsets| == 0 {
      assert PushAll(Zip(offsets, payloads)) == [];
      return Ok(());
    }
    var bufs, hdrs, fits := Gather(pool, offsets, payloads);
    if fits {
      r := WriteTo(bufs, hdrs, w, Zip(offsets, payloads));
    } else {
      r := Err(TooLarge);
    }
    Release(pool, hdrs, old(pool.idle), old(pool.lent));
  }

  /** The loop of WriteMessageBatch: queue a filled header and the payload of each message, up to the first too long. */
  method Gather(pool: Pool, offsets: seq<int64>, payloads: seq<Bytes>)
    returns (bufs: seq<Buf>, hdrs: seq<array<byte>>, fits: bool)
    requires pool.Valid() && |offsets| == |payloads|
    modifies pool, pool.idle
    ensures Holding(pool, hdrs, old(pool.idle), old(pool.lent))
    ensures forall h :: h in hdrs ==> h in old(pool.idle) || fresh(h)
    ensures Queued(bufs, hdrs, Heads(Zip(offsets, payloads)), Zip(offsets, payloads)) && (fits ==> |hdrs| == |offsets|)
    ensures fits <==> forall j :: 0 <= j < |payloads| ==> |payloads[j]| <= MAX_MESSAGE
  {
    hide Heads, Head, Filled;
    ghost var ms := Zip(offsets, payloads);
    NothingQueued(ms);
    bufs, hdrs := [], [];
    for i := 0 to |offsets|
      invariant |hdrs| == i && Queued(bufs, hdrs, Heads(ms), ms) && pool.idle <= old(pool.idle)
      invariant Holding(pool, hdrs, old(pool.idle), old(pool.lent))
      invariant forall h :: h in hdrs ==> h in old(pool.idle) || fresh(h)
      invariant forall j :: 0 <= j < i ==> |payloads[j]| <= MAX_MESSAGE
    {
      var p := payloads[i];
      if |p| > MAX_MESSAGE {
        fits := false;
        return;
      }
      bufs, hdrs := QueueOne(pool, Msg(offsets[i], p), bufs, hdrs, ms, old(pool.idle), old(pool.lent));
    }
    fits := true;
  }

  lemma NothingQueued(ms: seq<Msg>)
    ensures Queued([], [], Heads(ms), ms)
  {
  }

  /** One turn of that loop: a header for the message, both slices queued. */
  method QueueOne(pool: Pool, m: Msg, bufs: seq<Buf>, hdrs: seq<array<byte>>, ghost ms: seq<Msg>,
                  ghost idle0: set<array<byte>>, ghost lent0: set<array<byte>>)
    returns (bufs': seq<Buf>, hdrs': seq<array<byte>>)
    requires Holding(pool, hdrs, idle0, lent0) && Queued(bufs, hdrs, Heads(ms), ms) && |hdrs| < |ms| && m == ms[|hdrs|]
    modifies pool, pool.idle
    ensures Holding(pool, hdrs', idle0, lent0) && Queued(bufs', hdrs', Heads(ms), ms) && |hdrs'| == |hdrs| + 1
    ensures hdrs' == hdrs + [hdrs'[|hdrs|]] && (hdrs'[|hdrs|] in old(pool.idle) || fresh(hdrs'[|hdrs|]))
    ensures pool.idle <= old(pool.idle)
  {
    hide Heads, Head;
    var h := Borrow(pool, m, hdrs, ms);
    bufs', hdrs' := bufs + [Buf(h, m.payload)], hdrs + [h];
  }

  /** Besides what others hold, exactly `hdrs` is lent out. */
  ghost predicate Holding(pool: Pool, hdrs: seq<array<byte>>, idle0: set<array<byte>>, lent0: set<array<byte>>)
    reads pool
  {
    pool.Valid() && idle0 !! lent0 && pool.idle <= idle0
    && lent0 <= pool.lent && (forall h :: h in pool.lent ==> h in lent0 || h in hdrs)
    && (forall h :: h in hdrs ==> h in pool.lent && h !in lent0 && h.Length == POOLED_LEN)
  }

  method Release(pool: Pool, hdrs: seq<array<byte>>, ghost idle0: set<array<byte>>, ghost lent0: set<array<byte>>)
    requires Holding(pool, hdrs, idle0, lent0)
    requires forall i, j :: 0 <= i < j < |hdrs| ==> hdrs[i] != hdrs[j]
    modifies pool
    ensures pool.Valid() && pool.lent == lent0 && old(pool.idle) <= pool.idle <= old(pool.idle) + (set h | h in hdrs)
  {
    for i := 0 to |hdrs|
      invariant pool.Valid() && Holding(pool, hdrs[i..], old(pool.idle) + (set h | h in hdrs), lent0)
      invariant old(pool.idle) <= pool.idle <= old(pool.idle) + (set h | h in hdrs)
    {
      assert hdrs[i..] == [hdrs[i]] + hdrs[i + 1..];
      pool.Put(hdrs[i]);
    }
  }

  /** net.Buffers.WriteTo: the queued slices in order, read as they are now. */
  method WriteTo(bufs: seq<Buf>, ghost hdrs: seq<array<byte>>, w: Writer, ghost ms: seq<Msg>) returns (r: Result<()>)
    requires w.Valid() && Queued(bufs, hdrs, Heads(ms), ms) && |hdrs| == |ms|
    modifies w
    ensures w.Valid() && Wrote(false, PushAll(ms), r, w.limit, old(w.out), w.out)
  {
    hide Heads, Head, PushAll, Wrote;
    NothingPushed();
    ghost var frame, pos := PushAll(ms), 0;
    assert ms[..0] == [] && Heads(ms)[..|hdrs|] == Heads(ms);
    assert w.out == w.out + frame[..0];
    for k := 0 to |bufs|
      invariant pos == |PushAll(ms[..k])| <= |frame|
      invariant w.Valid() && w.out == old(w.out) + frame[..pos]
    {
      assert bufs[k].h[..] == Heads(ms)[k];
      HeadsAt(ms, k);
      var ok := WriteOne(bufs[k], w, ms, k, old(w.out));
      if !ok {
        return Err(Io);
      }
      pos := |PushAll(ms[..k + 1])|;
    }
    assert ms[..|ms|] == ms && frame[..pos] == frame;
    WroteAll(frame, w.limit, old(w.out), w.out);
    r := Ok(());
  }

  lemma NothingPushed()
    ensures PushAll([]) == []
  {
  }

  /** The two slices of the `k`-th message, those before it being out. */
  method WriteOne(buf: Buf, w: Writer, ghost ms: seq<Msg>, ghost k: nat, ghost out0: Bytes) returns (ok: bool)
    requires w.Valid() && k < |ms| && buf.h[..] == Head(ms[k].offset, |ms[k].payload|) && buf.payload == ms[k].payload
    requires |PushAll(ms[..k])| <= |PushAll(ms)| && w.out == out0 + PushAll(ms)[..|PushAll(ms[..k])|]
    modifies w
    ensures w.Valid() && |PushAll(ms[..k + 1])| <= |PushAll(ms)|
    ensures if ok then w.out == out0 + PushAll(ms)[..|PushAll(ms[..k + 1])|]
            else Wrote(false, PushAll(ms), Err(Io), w.limit, out0, w.out)
  {
    hide PushAll, Head, Wrote;
    ghost var frame, pos := PushAll(ms), |PushAll(ms[..k])|;
    MessagePlace(ms, k);
    ok := Push(w, buf.h[..], frame, pos, out0);
    if ok {
      ok := Push(w, buf.payload, frame, pos + POOLED_LEN, out0);
    }
  }

  /** Where the `k`-th message of a batch lies in what is sent. */
  lemma MessagePlace(ms: seq<Msg>, k: nat)
    requires k < |ms|
    ensures var pos := |PushAll(ms[..k])|;
            PieceAt(PushAll(ms), pos, Head(ms[k].offset, |ms[k].payload|))
            && PieceAt(PushAll(ms), pos + POOLED_LEN, ms[k].payload)
            && |PushAll(ms[..k + 1])| == pos + POOLED_LEN + |ms[k].payload|
  {
    PushSnoc(ms, k);
    ConcatAppend(PushBytes, ms[..k + 1], ms[k + 1..]);
    assert ms == ms[..k + 1] + ms[k + 1..];
    PushIsHeadAndPayload(ms[k]);
    PrefixPiece(PushAll(ms), PushAll(ms[..k]), PushBytes(ms[k]), PushAll(ms[k + 1..]));
    HalvesAt(PushAll(ms), |PushAll(ms[..k])|, Head(ms[k].offset, |ms[k].payload|), ms[k].payload);
  }

  lemma PushSnoc(ms: seq<Msg>, k: nat)
    requires k < |ms|
    ensures PushAll(ms[..k + 1]) == PushAll(ms[..k]) + PushBytes(ms[k])
  {
    assert ms[..k + 1] == ms[..k] + [ms[k]];
    ConcatAppend(PushBytes, ms[..k], [ms[k]]);
    ConcatOne(PushBytes, ms[k]);
  }

  lemma PrefixPiece(f: Bytes, a: Bytes, b: Bytes, c: Bytes)
    requires f == (a + b) + c
    ensures PieceAt(f, |a|, b)
  {
  }
}
