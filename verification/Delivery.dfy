/**
 From the log to the subscriber over the network: the server's push loop
 (network/server.go:324-351) over a partition's subscription, and the client's Read and
 ReadBatch (network/client.go:460-524) over whatever of the pushed bytes arrived.
 */
module Delivery {
  import opened Words
  import opened Frames
  import opened Store
  import opened HeaderPool
  import opened Requests
  import opened Writers
  import K = Kernel
  import Broadcast
  import Codec
  import Decoders
  import opened Partitions

  // ---- what the push loop sends ----

  function FramesOf(ms: seq<Msg>): (fs: seq<Frame>)
    ensures |fs| == |ms| && forall i :: 0 <= i < |ms| ==> fs[i] == PushFrame(ms[i])
  {
    seq(|ms|, i requires 0 <= i < |ms| => PushFrame(ms[i]))
  }

  /**
   The frames sent for a row of batches: a batch with a message that cannot be pushed is
   not sent at all; an error frame, if it can be sent, is the last thing then.
   */
  function Streamed(e: Frame, batches: seq<seq<Msg>>): seq<Frame> {
    if batches == [] then []
    else if Oversize(batches[0]) then if Sendable(e) then [e] else []
    else FramesOf(batches[0]) + Streamed(e, batches[1..])
  }

  lemma {:induction false} BatchBytes(ms: seq<Msg>)
    ensures Wire(FramesOf(ms)) == PushAll(ms)
  {
    if ms != [] {
      BatchBytes(ms[1..]);
      assert FramesOf(ms)[1..] == FramesOf(ms[1..]);
    }
  }

  /** The frames sent are all within the limit: those of the first messages read, and possibly the error frame. */
  lemma {:induction false} StreamedShape(e: Frame, batches: seq<seq<Msg>>) returns (n: nat)
    ensures n <= |Flatten(batches)| && (Streamed(e, batches) == FramesOf(Flatten(batches)[..n])
                                    || (Sendable(e) && Streamed(e, batches) == FramesOf(Flatten(batches)[..n]) + [e]))
    ensures forall i :: 0 <= i < n ==> |Flatten(batches)[i].payload| <= MAX_MESSAGE
  {
    hide Oversize, PushFrame;
    n := 0;
    if batches != [] && !Oversize(batches[0]) {
      FlattenFront(batches);
      OversizeIff(batches[0]);
      var m := StreamedShape(e, batches[1..]);
      n := |batches[0]| + m;
      assert Flatten(batches)[..n] == batches[0] + Flatten(batches[1..])[..m];
      assert FramesOf(Flatten(batches)[..n]) == FramesOf(batches[0]) + FramesOf(Flatten(batches[1..])[..m]);
      forall i | 0 <= i < n ensures |Flatten(batches)[i].payload| <= MAX_MESSAGE {
        if i >= |batches[0]| {
          assert Flatten(batches)[i] == Flatten(batches[1..])[i - |batches[0]|];
        }
      }
    } else {
      assert Flatten(batches)[..0] == [] && FramesOf([]) == [];
    }
  }

  // ---- what the client reads ----

  /** The messages successive Reads return, up to the first error. */
  ghost function Messages(s: Bytes): seq<Msg>
    decreases |s|
  {
    match NextFrame(s)
    case (Ok(f), rest) => if Carried(f).Ok? then [Carried(f).value] + Messages(rest) else []
    case (Err(_), _) => []
  }

  /** What is left in the stream when a Read has failed for the first time. */
  ghost function Leftover(s: Bytes): Bytes
    decreases |s|
  {
    match NextFrame(s)
    case (Ok(f), rest) => if Carried(f).Ok? then Leftover(rest) else rest
    case (Err(_), rest) => rest
  }

  /** The messages at the front of a row of frames. */
  ghost function MessagesIn(fs: seq<Frame>): seq<Msg> {
    if fs == [] || Carried(fs[0]).Err? then [] else [Carried(fs[0]).value] + MessagesIn(fs[1..])
  }

  lemma {:induction false} ReadsFrames(s: Bytes)
    ensures Messages(s) == MessagesIn(ReadAll(s).0)
    decreases |s|
  {
    match NextFrame(s)
    case (Ok(f), rest) =>
      ReadsFrames(rest);
      assert ReadAll(s).0 == [f] + ReadAll(rest).0;
      assert ([f] + ReadAll(rest).0)[1..] == ReadAll(rest).0;
    case (Err(_), _) =>
  }

  lemma {:induction false} MessagesBack(ms: seq<Msg>, tail: seq<Frame>)
    requires (forall i :: 0 <= i < |ms| ==> |ms[i].payload| <= MAX_MESSAGE)
    requires tail == [] || Carried(tail[0]).Err?
    ensures MessagesIn(FramesOf(ms) + tail) == ms
  {
    hide FramesOf, PushFrame, Carried;
    var fs := FramesOf(ms) + tail;
    if ms == [] {
      assert fs == tail;
    } else {
      PushRead(ms[0]);
      MessagesBack(ms[1..], tail);
      assert fs[0] == PushFrame(ms[0]) && fs[1..] == FramesOf(ms[1..]) + tail;
    }
  }

  /** However the bytes of a stream are cut, what is read from them is a prefix of the messages that were read from the log. */
  lemma CutStream(e: Frame, batches: seq<seq<Msg>>, s: Bytes)
    requires e.op == OP_ERROR && s <= Wire(Streamed(e, batches))
    ensures Messages(s) <= Flatten(batches)
  {
    hide Carried, PushFrame, FramesOf, MessagesIn, Messages, Wire, Streamed, Flatten, ReadAll, Sendable;
    var n := StreamedShape(e, batches);
    var ms, fs := Flatten(batches)[..n], Streamed(e, batches);
    SendableFrames(ms);
    var k := Reassemble(fs, s);
    ReadsFrames(s);
    ErrorIsNoMessage(e);
    if k <= n {
      assert fs[..k] == FramesOf(ms[..k]) + [];
      MessagesBack(ms[..k], []);
    } else {
      assert fs[..k] == FramesOf(ms) + [e];
      MessagesBack(ms, [e]);
    }
  }

  lemma SendableFrames(ms: seq<Msg>)
    requires forall i :: 0 <= i < |ms| ==> |ms[i].payload| <= MAX_MESSAGE
    ensures AllSendable(FramesOf(ms))
  {
  }

  lemma ErrorIsNoMessage(e: Frame)
    requires e.op == OP_ERROR
    ensures Carried(e).Err?
  {
  }

  /** Of such a stream nothing is left after the first error, so every later Read fails as well. */
  lemma QuietAfterError(e: Frame, batches: seq<seq<Msg>>, s: Bytes)
    requires e.op == OP_ERROR && s <= Wire(Streamed(e, batches))
    ensures Leftover(s) == []
  {
    hide Carried, PushFrame, Leftover, Wire, Streamed, Flatten, Sendable;
    var n := StreamedShape(e, batches);
    var ms := Flatten(batches)[..n];
    if Streamed(e, batches) == FramesOf(ms) {
      assert FramesOf(ms) + [] == FramesOf(ms);
      QuietEnd(ms, [], s);
    } else {
      QuietEnd(ms, [e], s);
    }
  }

  lemma {:induction false} QuietEnd(ms: seq<Msg>, tail: seq<Frame>, s: Bytes)
    requires forall i :: 0 <= i < |ms| ==> |ms[i].payload| <= MAX_MESSAGE
    requires tail == [] || (|tail| == 1 && tail[0].op == OP_ERROR && Sendable(tail[0]))
    requires s <= Wire(FramesOf(ms) + tail)
    ensures Leftover(s) == []
  {
    hide Carried, PushFrame, FramesOf, Sendable, NextFrame;
    var fs := FramesOf(ms) + tail;
    if fs == [] {
      NothingNext();
    } else {
      if ms == [] {
        ErrorIsNoMessage(tail[0]);
      } else {
        PushRead(ms[0]);
        assert fs[1..] == FramesOf(ms[1..]) + tail;
      }
      var enc := EncodeFrame(fs[0]);
      PrefixSplit(s, enc, Wire(fs[1..]));
      if |s| < |enc| {
        NextFrameCut(fs[0], s);
      } else {
        NextFrameOn(fs[0], s[|enc|..]);
        if ms != [] {
          QuietEnd(ms[1..], tail, s[|enc|..]);
        } else {
          assert fs[1..] == [];
        }
      }
    }
  }

  lemma NothingNext()
    ensures NextFrame([]) == (Err(Truncated), [])
  {
  }

  /**
   End to end.  In any state of any run of a partition, with any subscription whose
   batches the server pushes: wherever the connection is cut, the subscriber has read a
   prefix of the topic's log, every offset in place from 0 on.
   */
  lemma EndToEnd(m: K.Policy, acts: seq<K.Action>, i: nat, e: Frame, s: Bytes)
    requires K.Run(m, acts).Some? && i < |K.Run(m, acts).value.subs| && e.op == OP_ERROR
    requires s <= Wire(Streamed(e, K.Run(m, acts).value.subs[i].batches))
    ensures Messages(s) <= K.Run(m, acts).value.log
    ensures forall k :: 0 <= k < |Messages(s)| ==> Messages(s)[k].offset as int == k
  {
    CutStream(e, K.Run(m, acts).value.subs[i].batches, s);
    Broadcast.ExactlyOnceInOrder(m, acts, i);
    var got, log := Flatten(K.Run(m, acts).value.subs[i].batches), K.Run(m, acts).value.log;
    assert Messages(s) <= got <= log;
    forall k | 0 <= k < |Messages(s)| ensures Messages(s)[k].offset as int == k {
      assert Messages(s)[k] == got[k];
    }
  }

  /** And if nothing is cut and everything can be pushed, the subscriber has all that was read from the log. */
  lemma NothingMissing(e: Frame, batches: seq<seq<Msg>>)
    requires forall j :: 0 <= j < |batches| ==> !Oversize(batches[j])
    ensures Messages(Wire(Streamed(e, batches))) == Flatten(batches)
  {
    AllStreamed(e, batches);
    var ms := Flatten(batches);
    SendableFrames(ms);
    ReassembleWhole(FramesOf(ms));
    ReadsFrames(Wire(FramesOf(ms)));
    assert FramesOf(ms) + [] == FramesOf(ms);
    MessagesBack(ms, []);
  }

  lemma {:induction false} AllStreamed(e: Frame, batches: seq<seq<Msg>>)
    requires forall j :: 0 <= j < |batches| ==> !Oversize(batches[j])
    ensures Streamed(e, batches) == FramesOf(Flatten(batches))
    ensures forall i :: 0 <= i < |Flatten(batches)| ==> |Flatten(batches)[i].payload| <= MAX_MESSAGE
  {
    hide Oversize;
    if batches != [] {
      FlattenFront(batches);
      OversizeIff(batches[0]);
      AllStreamed(e, batches[1..]);
      forall i | 0 <= i < |Flatten(batches)| ensures |Flatten(batches)[i].payload| <= MAX_MESSAGE {
        if i >= |batches[0]| {
          assert Flatten(batches)[i] == Flatten(batches[1..])[i - |batches[0]|];
        }
      }
    }
  }

  // ---- the push loop ----

  /** One more batch behind batches that could all be pushed. */
  lemma {:induction false} StreamedSnoc(e: Frame, batches: seq<seq<Msg>>, b: seq<Msg>)
    requires forall j :: 0 <= j < |batches| ==> !Oversize(batches[j])
    ensures Streamed(e, batches + [b]) == Streamed(e, batches) + Streamed(e, [b])
  {
    if batches == [] {
      assert [] + [b] == [b] && Streamed(e, []) + Streamed(e, [b]) == Streamed(e, [b]);
    } else {
      StreamedSnoc(e, batches[1..], b);
      assert (batches + [b])[1..] == batches[1..] + [b];
      assert FramesOf(batches[0]) + (Streamed(e, batches[1..]) + Streamed(e, [b]))
          == Streamed(e, batches) + Streamed(e, [b]);
    }
  }

  /** What one batch adds to the connection. */
  lemma StreamedOne(e: Frame, b: seq<Msg>)
    ensures Oversize(b) ==> Wire(Streamed(e, [b])) == if Sendable(e) then EncodeFrame(e) else []
    ensures !Oversize(b) ==> Wire(Streamed(e, [b])) == PushAll(b)
  {
    assert Streamed(e, [b][1..]) == [];
    if Oversize(b) {
      ConcatOne(EncodeFrame, e);
    } else {
      assert FramesOf(b) + [] == FramesOf(b);
      BatchBytes(b);
    }
  }

  lemma StreamedGrows(e: Frame, batches: seq<seq<Msg>>, b: seq<Msg>)
    requires forall j :: 0 <= j < |batches| ==> !Oversize(batches[j])
    ensures Wire(Streamed(e, batches + [b])) == Wire(Streamed(e, batches)) + Wire(Streamed(e, [b]))
  {
    StreamedSnoc(e, batches, b);
    ConcatAppend(EncodeFrame, Streamed(e, batches), Streamed(e, [b]));
  }

  lemma StreamedMore(e: Frame, batches: seq<seq<Msg>>, b: seq<seq<Msg>>)
    requires (forall j :: 0 <= j < |batches| ==> !Oversize(batches[j])) && |b| <= 1
    ensures Wire(Streamed(e, batches + b)) == Wire(Streamed(e, batches)) + Wire(Streamed(e, b))
    ensures b == [] ==> Wire(Streamed(e, b)) == []
  {
    hide Oversize, Wire;
    if b == [] {
      StreamedNothing(e);
      assert batches + b == batches;
    } else {
      assert b == [b[0]];
      StreamedGrows(e, batches, b[0]);
    }
  }

  /** The argument slices of WriteMessageBatch (server.go:338-343). */
  method Unzip(msgs: seq<Msg>) returns (offsets: seq<int64>, payloads: seq<Bytes>)
    ensures |offsets| == |payloads| && Zip(offsets, payloads) == msgs && payloads == Payloads(msgs)
  {
    offsets, payloads := [], [];
    for i := 0 to |msgs|
      invariant |offsets| == |payloads| == i
      invariant forall j :: 0 <= j < i ==> offsets[j] == msgs[j].offset && payloads[j] == msgs[j].payload
    {
      offsets := offsets + [msgs[i].offset];
      payloads := payloads + [msgs[i].payload];
    }
  }

  /** Write one batch, or the error frame in its place; false when the loop has to end. */
  method PushBatch(pool: Pool, w: Writer, e: Frame, msgs: seq<Msg>) returns (more: bool)
    requires pool.Valid() && w.Valid()
    modifies pool, pool.idle, w
    ensures pool.Valid() && pool.lent == old(pool.lent) && fresh(pool.idle - old(pool.idle)) && w.Valid()
    ensures w.out == Take(old(w.out) + Wire(Streamed(e, [msgs])), w.limit)
    ensures more <==> !Oversize(msgs) && |old(w.out)| + |Wire(Streamed(e, [msgs]))| <= w.limit
  {
    hide TooLong, Streamed, Wire, PushAll, EncodeFrame;
    var offsets, payloads := Unzip(msgs);
    var r := WriteMessageBatch(pool, w, offsets, payloads);
    StreamedOne(e, msgs);
    more := r.Ok?;
    if r == Err(TooLarge) {
      var ignored := WriteFrame(w, e.op, e.payload);
    }
  }

  /** A subscription of a valid partition, with nobody reading from it if `idle`; a fact to pass on without looking inside. */
  ghost predicate Standing(sub: Subscription, idle: bool)
    reads sub.partition, sub.partition.store, sub.partition.everyone
  {
    sub.partition.Valid() && sub in sub.partition.everyone && (idle ==> sub.partition.k.subs[sub.id].pc == K.Idle)
  }

  ghost function History(sub: Subscription): seq<seq<Msg>>
    reads sub.partition
  {
    if sub.id < |sub.partition.k.subs| then sub.partition.k.subs[sub.id].batches else []
  }

  lemma Stands(sub: Subscription, idle: bool)
    ensures Standing(sub, idle) <==>
              sub.partition.Valid() && sub in sub.partition.everyone && (idle ==> sub.partition.k.subs[sub.id].pc == K.Idle)
    ensures Standing(sub, idle) ==> History(sub) == sub.partition.k.subs[sub.id].batches
  {
  }

  /** Why the push loop is over: we stop watching, it waits for messages, its Read failed, or a write did. */
  datatype End = Watched | Waiting | ReadFailed(error: Error) | WriteFailed

  /** Every batch before the last one could be pushed, and the last one, too, unless that ended the loop. */
  ghost predicate AllPushable(batches: seq<seq<Msg>>, end: End) {
    forall j :: 0 <= j < |batches| && (j < |batches| - 1 || end != WriteFailed) ==> !Oversize(batches[j])
  }

  /** Batches hold 1 to 64 messages, and none but the last fewer than 64 when nobody publishes. */
  ghost predicate Sized(batches: seq<seq<Msg>>, publishing: bool) {
    forall j :: 0 <= j < |batches| ==>
      1 <= |batches[j]| <= 64 && (j < |batches| - 1 && !publishing ==> |batches[j]| == 64)
  }

  /** The same in the middle of the loop: the last batch, too, is full unless the cursor is at the log's end. */
  ghost predicate Pace(batches: seq<seq<Msg>>, publishing: bool, at: int64, log: seq<Msg>) {
    Sized(batches, publishing)
    && (batches != [] && !publishing ==> |batches[|batches| - 1]| == 64 || at as int == |log|)
  }

  /** One more turn of the loop. */
  lemma PaceKept(o: Others, batches: seq<seq<Msg>>, s: Seen, at: int64, b: seq<seq<Msg>>, t: Seen, to: int64)
    requires Pace(batches, o.publish, at, s.log) && Apart(o, s, t) && |b| <= 1
    requires if b == [] then to == at else NextBatch(b[0], at, to, 64, t.log)
    ensures Pace(batches + b, o.publish, to, t.log) && Sized(batches + b, o.publish)
  {
    if b == [] {
      assert batches + b == batches;
    } else {
      assert |b[0]| == (to - at) as int;
    }
  }

  /**
   stream, for at most `turns` rounds and while others act as `o` says: the connection
   carries the batches read, as far as it carries anything, and the loop ends for no other
   reason than the source gives.
   */
  method Stream(pool: Pool, w: Writer, e: Frame, sub: Subscription, o: Others, turns: nat)
    returns (ghost batches: seq<seq<Msg>>, end: End)
    requires pool.Valid() && w.Valid() && Standing(sub, true)
    modifies pool, pool.idle, w, sub.partition, sub.partition.store, sub.partition.everyone
    ensures pool.Valid() && pool.lent == old(pool.lent) && w.Valid()
    ensures Standing(sub, end != Waiting) && Apart(o, old(sub.Look()), sub.Look())
    ensures History(sub) == old(History(sub)) + batches && |batches| <= turns && Sized(batches, o.publish)
    ensures w.out == Take(old(w.out) + Wire(Streamed(e, batches)), w.limit) && AllPushable(batches, end)
    ensures match end
            case Watched => |batches| == turns && w.out == old(w.out) + Wire(Streamed(e, batches))
            case Waiting =>
              !sub.done && !sub.partition.closed && !o.cancel && sub.offset as int >= |sub.partition.store.msgs|
              && w.out == old(w.out) + Wire(Streamed(e, batches))
            case ReadFailed(error) =>
              ((error == Cancelled && o.cancel) || (error == Closed && (sub.done || sub.partition.closed)))
              && w.out == old(w.out) + Wire(Streamed(e, batches))
            case WriteFailed =>
              batches != []
              && (Oversize(batches[|batches| - 1]) || |old(w.out)| + |Wire(Streamed(e, batches))| > w.limit)
  {
    hide K.Run, Streamed, Wire, Oversize, Apart, Standing, History, EncodeFrame, Sendable, Sized, Pace, NextBatch, AllPushable;
    PaceNothing(o.publish, sub.offset, sub.Look().log);
    PushableMore([], [], Watched);
    batches := [];
    StreamedNothing(e);
    ApartNothing(o, sub.Look());
    for i := 0 to turns
      invariant pool.Valid() && pool.lent == old(pool.lent) && fresh(pool.idle - old(pool.idle)) && w.Valid()
      invariant Standing(sub, true) && Apart(o, old(sub.Look()), sub.Look())
      invariant fresh(sub.partition.everyone - old(sub.partition.everyone)) && |batches| == i
      invariant History(sub) == old(History(sub)) + batches && w.out == old(w.out) + Wire(Streamed(e, batches))
      invariant AllPushable(batches, Watched)
      invariant Pace(batches, o.publish, sub.offset, sub.Look().log) && Sized(batches, o.publish)
    {
      ghost var before, at := sub.Look(), sub.offset;
      ghost var b;
      b, end := Turn(pool, w, e, sub, o);
      ApartOn(o, old(sub.Look()), before, sub.Look());
      PushableMore(batches, b, end);
      StreamedMore(e, batches, b);
      Associative(old(w.out), Wire(Streamed(e, batches)), Wire(Streamed(e, b)));
      PaceKept(o, batches, before, at, b, sub.Look(), sub.offset);
      batches := batches + b;
      if end != Watched {
        return;
      }
    }
    end := Watched;
  }

  /** Once around the loop; Watched: it goes on. */
  method Turn(pool: Pool, w: Writer, e: Frame, sub: Subscription, o: Others) returns (ghost b: seq<seq<Msg>>, end: End)
    requires pool.Valid() && w.Valid() && Standing(sub, true)
    modifies pool, pool.idle, w, sub.partition, sub.partition.store, sub.partition.everyone
    ensures pool.Valid() && pool.lent == old(pool.lent) && fresh(pool.idle - old(pool.idle)) && w.Valid()
    ensures Standing(sub, end != Waiting) && Apart(o, old(sub.Look()), sub.Look())
    ensures fresh(sub.partition.everyone - old(sub.partition.everyone))
    ensures History(sub) == old(History(sub)) + b && |b| == if end == Watched || end == WriteFailed then 1 else 0
    ensures b != [] ==> w.out == Take(old(w.out) + Wire(Streamed(e, b)), w.limit)
    ensures if b == [] then sub.offset == old(sub.offset)
            else NextBatch(b[0], old(sub.offset), sub.offset, 64, sub.Look().log)
    ensures match end
            case Watched => !Oversize(b[0]) && |old(w.out)| + |Wire(Streamed(e, b))| <= w.limit
            case Waiting =>
              !sub.done && !sub.partition.closed && !o.cancel && sub.offset as int >= |sub.partition.store.msgs|
              && w.out == old(w.out)
            case ReadFailed(error) =>
              ((error == Cancelled && o.cancel) || (error == Closed && (sub.done || sub.partition.closed)))
              && w.out == old(w.out)
            case WriteFailed => Oversize(b[0]) || |old(w.out)| + |Wire(Streamed(e, b))| > w.limit
  {
    hide K.Run, Streamed, Wire, Oversize, Apart, Standing, History, NextBatch;
    b := [];
    var r := Pull(sub, o);
    if r == None {
      return b, Waiting;
    }
    if r.value.Err? {
      return b, ReadFailed(r.value.error);
    }
    b := [r.value.value];
    var more := PushBatch(pool, w, e, r.value.value);
    end := if more then Watched else WriteFailed;
  }

  /** The loop's call of Read. */
  method Pull(sub: Subscription, o: Others) returns (r: Option<Result<seq<Msg>>>)
    requires Standing(sub, true)
    modifies sub.partition, sub.partition.store, sub.partition.everyone
    ensures Standing(sub, r != None) && Apart(o, old(sub.Look()), sub.Look())
    ensures fresh(sub.partition.everyone - old(sub.partition.everyone))
    ensures r == None ==>
              !sub.done && !sub.partition.closed && !o.cancel && sub.offset as int >= |sub.partition.store.msgs|
    ensures r.Some? && r.value.Err? ==>
              (r.value.error == Cancelled && o.cancel) || (r.value.error == Closed && (sub.done || sub.partition.closed))
    ensures History(sub) == old(History(sub)) + if r.Some? && r.value.Ok? then [r.value.value] else []
    ensures if r.Some? && r.value.Ok? then NextBatch(r.value.value, old(sub.offset), sub.offset, 64, sub.partition.store.msgs)
            else sub.offset == old(sub.offset)
  {
    hide K.Run, Apart;
    r := sub.Read(PUSH_BATCH as int64, o);
  }

  lemma PushableMore(batches: seq<seq<Msg>>, b: seq<seq<Msg>>, end: End)
    requires batches == [] || AllPushable(batches, Watched)
    requires |b| <= 1 && (b != [] && end != WriteFailed ==> !Oversize(b[0]))
    ensures (forall j :: 0 <= j < |batches| ==> !Oversize(batches[j])) && AllPushable(batches + b, end)
    ensures batches + [] == batches
  {
  }

  lemma PaceNothing(publishing: bool, at: int64, log: seq<Msg>)
    ensures Pace([], publishing, at, log) && Sized([], publishing)
  {
  }

  lemma ApartNothing(o: Others, s: Seen)
    ensures Apart(o, s, s)
  {
  }

  lemma StreamedNothing(e: Frame)
    ensures Wire(Streamed(e, [])) == []
  {
  }

  /** A message too long for its frame ends the stream: what came before has arrived, and then the error. */
  lemma OversizeTold(e: Frame, batches: seq<seq<Msg>>, b: seq<Msg>)
    requires (forall j :: 0 <= j < |batches| ==> !Oversize(batches[j])) && Oversize(b)
    requires e.op == OP_ERROR && Sendable(e)
    ensures ReadAll(Wire(Streamed(e, batches + [b]))) == (FramesOf(Flatten(batches)) + [e], Truncated)
    ensures Messages(Wire(Streamed(e, batches + [b]))) == Flatten(batches)
  {
    hide Oversize, Wire, FramesOf, Flatten, Carried, ReadAll;
    AllStreamed(e, batches);
    StreamedSnoc(e, batches, b);
    assert Streamed(e, [b]) == [e];
    var ms := Flatten(batches);
    SendableFrames(ms);
    ReassembleWhole(FramesOf(ms) + [e]);
    ReadsFrames(Wire(FramesOf(ms) + [e]));
    ErrorIsNoMessage(e);
    MessagesBack(ms, [e]);
  }

  // ---- the subscriber ----

  /**
   The client's Subscription on the connection's reader.  `start` are the bytes it began
   with, `got` what its reads have returned up to the first failure.
   */
  class NetSubscription {
    const br: Frames.Stream
    var closed: bool
    ghost const start: Bytes
    ghost var got: seq<Msg>
    ghost var failed: bool

    /** What was returned and what is still to read make up what the bytes hold; once a read has failed, that was all. */
    ghost predicate Valid()
      reads this, br
    {
      if failed then got == Messages(start) && (Clean() ==> br.data == [])
      else got + Messages(br.data) == Messages(start) && Leftover(br.data) == Leftover(start)
    }

    /** The bytes are of the kind the push loop sends: nothing comes after an error. */
    ghost predicate Clean() {
      Leftover(start) == []
    }

    constructor (stream: Frames.Stream)
      ensures Valid() && br == stream && start == stream.data && got == [] && !failed && !closed
    {
      hide Messages, Leftover;
      br, start, got, failed, closed := stream, stream.data, [], false, false;
    }

    /** Another goroutine may close the client, if anybody does. */
    method Others(closing: bool)
      modifies this`closed
      ensures (old(closed) ==> closed) && (closed ==> old(closed) || closing)
    {
      var now: bool := *;
      closed := closed || (closing && now);
    }

    /** One frame; an error here may leave the reader anywhere. */
    method ReadOne(closing: bool) returns (r: Result<Msg>)
      modifies br, this`closed
      ensures (old(closed) ==> closed) && (closed ==> old(closed) || closing) && br.data == NextFrame(old(br.data)).1
      ensures match NextFrame(old(br.data)).0
              case Ok(f) => r == Carried(f)
              case Err(e) => r == Err(e) || (closed && r == Err(Closed))
    {
      var f := br.ReadFrame();
      if f.Err? {
        Others(closing);
        return Err(if closed then Closed else f.error);
      }
      NextFrameIff(old(br.data), f.value);
      var body: Codec.Slice := f.value.payload;
      if f.value.op == OP_MESSAGE {
        var v := Decoders.DecodeMessage(body);
        if v.Err? {
          return Err(v.error);
        }
        Codec.ParsedIff(Codec.KMessage, body, v.value);
        return Ok(Msg(v.value.offset, v.value.msg));
      } else if f.value.op == OP_ERROR {
        var v := Decoders.DecodeError(body);
        if v.Err? {
          return Err(v.error);
        }
        Codec.ParsedIff(Codec.KError, body, v.value);
        return Err(Remote(v.value.code));
      }
      r := Err(Unexpected);
    }

    /**
     Read: the next frame, and the message it carries or why there is none; ErrClosed and
     nothing read once closed.  When it has failed on a clean stream it fails every time.
     */
    method Read(closing: bool) returns (r: Result<Msg>)
      requires Valid()
      modifies br, this`got, this`failed, this`closed
      ensures Valid() && (old(closed) ==> closed) && (closed ==> old(closed) || closing) && (old(failed) ==> failed)
      ensures old(closed) ==> r == Err(Closed) && br.data == old(br.data) && failed == old(failed)
      ensures !closed ==> br.data == NextFrame(old(br.data)).1
                          && match NextFrame(old(br.data)).0 { case Ok(f) => r == Carried(f) case Err(e) => r == Err(e) }
      ensures r.Ok? ==> |br.data| < |old(br.data)|
      ensures got == old(got) + if r.Ok? && !old(failed) then [r.value] else []
      ensures if r.Ok? then failed == old(failed) else failed || (closed && r.error == Closed)
      ensures Clean() && old(failed) ==> r.Err?
      ensures !old(failed) && r.Ok? ==> Messages(old(br.data)) == [r.value] + Messages(br.data)
      ensures !old(failed) && failed ==> Messages(old(br.data)) == []
    {
      hide NextFrame, Carried;
      NothingNext();
      NextIsShorter(br.data);
      Others(closing);
      if closed {
        return Err(Closed);
      }
      r := ReadOne(closing);
      if r.Ok? && !failed {
        got := got + [r.value];
      } else {
        failed := failed || r.Err?;
      }
    }

    /**
     ReadBatch: at least one message, then more as long as there is room for them and the
     buffer is not empty, which it is found not to be `buffered` times (how much has arrived
     is up to the network); whatever error comes after the first message is dropped.
     */
    method ReadBatch(max: int, buffered: nat, closing: bool) returns (r: Result<seq<Msg>>)
      requires Valid()
      modifies br, this`got, this`failed, this`closed
      ensures Valid() && (old(failed) ==> failed) && (old(closed) ==> closed && r == Err(Closed))
      ensures closed ==> old(closed) || closing
      ensures r.Ok? ==> 1 <= |r.value| <= if max <= 0 then 1 else max
      ensures r.Ok? && (Clean() || !old(failed)) ==> !old(failed) && got == old(got) + r.value
      ensures r.Err? ==> (failed || (closed && r.error == Closed)) && got == old(got)
      ensures !closed && !old(failed) ==>
                if Messages(old(br.data)) == [] then r.Err?
                else r == Ok(Take(Messages(old(br.data)), AtMost(if max <= 0 then 1 else max, 1 + buffered)))
    {
      hide Messages, Leftover, NextFrame, Carried;
      var most := if max <= 0 then 1 else max;
      var first := Read(closing);
      if first.Err? {
        return Err(first.error);
      }
      var out, left := [first.value], buffered;
      ghost var all := Messages(old(br.data));
      while |out| < most && left > 0
        invariant Valid() && 1 <= |out| <= most && failed == old(failed) && |out| + left == 1 + buffered
        invariant (old(closed) ==> closed) && (closed ==> old(closed) || closing)
        invariant !failed ==> got == old(got) + out && all == out + Messages(br.data)
        invariant failed ==> !Clean()
        decreases left
      {
        ghost var data := br.data;
        var m := Read(closing);
        if m.Err? {
          if !closed && !old(failed) {
            TakeFront(all, out, Messages(data), AtMost(most, 1 + buffered));
          }
          return Ok(out);
        }
        assert !failed ==> out + Messages(data) == (out + [m.value]) + Messages(br.data);
        out, left := out + [m.value], left - 1;
      }
      if !failed {
        TakeFront(all, out, Messages(br.data), AtMost(most, 1 + buffered));
      }
      r := Ok(out);
    }
  }

  function AtMost(a: nat, b: nat): (m: nat)
    ensures m <= a && m <= b && (m == a || m == b)
  {
    if a < b then a else b
  }

  lemma TakeFront(all: seq<Msg>, front: seq<Msg>, rest: seq<Msg>, n: nat)
    requires all == front + rest && (|front| == n || (rest == [] && |front| <= n))
    ensures Take(all, n) == front
  {
  }

  lemma NextIsShorter(s: Bytes)
    ensures NextFrame(s).0.Ok? ==> |NextFrame(s).1| < |s|
  {
  }

  // ---- both ends of one connection ----

  /** What arrives of a connection that carries a push stream behind earlier bytes is the front of that stream. */
  lemma Arrived(stream: Bytes, limit: nat, out0: Bytes, out1: Bytes, n: nat)
    requires |out0| <= limit && out1 == Take(out0 + stream, limit)
    ensures out0 <= out1 && Take(out1[|out0|..], n) <= stream
    ensures out1 == out0 + stream && n >= |out1| - |out0| ==> Take(out1[|out0|..], n) == stream
  {
    assert out1[..|out0|] == out0;
    assert out1[|out0|..] == stream[..|out1| - |out0|];
  }

  /**
   End to end on the objects.  The push loop runs on a new subscription while others work on
   the partition, any `n` bytes of what it wrote arrive, and the client reads them in batches,
   one ReadBatch for every pair in `calls`: what its reads return is a prefix of the topic's
   log, offsets from 0 on.  And once the loop has caught up, everything it wrote has arrived
   and the client has read on to the end, it is the whole log.
   */
  method PushAndRead(pool: Pool, w: Writer, e: Frame, sub: Subscription, o: Others, turns: nat,
                     n: nat, calls: seq<(int, nat)>, closing: bool)
    returns (net: NetSubscription, end: End)
    requires pool.Valid() && w.Valid() && e.op == OP_ERROR
    requires sub.partition.Valid() && sub in sub.partition.everyone
    requires sub.partition.k.subs[sub.id].pc == K.Idle && sub.partition.k.subs[sub.id].batches == []
    modifies pool, pool.idle, w, sub.partition, sub.partition.store, sub.partition.everyone
    ensures w.Valid() && old(w.out) <= w.out && net.start == Take(w.out[|old(w.out)|..], n)
    ensures net.Valid() && net.Clean() && net.got <= sub.partition.store.msgs
    ensures forall k :: 0 <= k < |net.got| ==> net.got[k].offset as int == k
    ensures end == Waiting && n >= |w.out| - |old(w.out)| && !closing && |calls| > |sub.partition.store.msgs| ==>
              net.got == sub.partition.store.msgs
  {
    hide K.Run, Streamed, Wire, Messages, Leftover, Apart;
    var sent := |w.out|;
    ghost var batches;
    batches, end := Stream(pool, w, e, sub, o, turns);
    Stands(sub, false);
    Arrived(Wire(Streamed(e, batches)), w.limit, old(w.out), w.out, n);
    ReadPrefix(sub, e, Take(w.out[sent..], n), batches);
    if end == Waiting {
      CaughtUp(sub, e, batches);
    }
    net := Subscriber(Take(w.out[sent..], n), sub.partition.store.msgs, calls, closing);
  }

  /** A client that reads a connection in batches. */
  method Subscriber(arrived: Bytes, ghost log: seq<Msg>, calls: seq<(int, nat)>, closing: bool)
    returns (net: NetSubscription)
    requires Leftover(arrived) == [] && Messages(arrived) <= log
    requires forall k :: 0 <= k < |Messages(arrived)| ==> Messages(arrived)[k].offset as int == k
    ensures net.start == arrived && net.Valid() && net.Clean() && net.got <= log
    ensures forall k :: 0 <= k < |net.got| ==> net.got[k].offset as int == k
    ensures !closing && |calls| > |Messages(arrived)| ==> net.got == Messages(arrived)
  {
    hide Messages, Leftover;
    var reader := new Frames.Stream(arrived);
    net := new NetSubscription(reader);
    for i := 0 to |calls|
      invariant net.Valid() && fresh(net) && fresh(net.br) && (net.closed ==> closing)
      invariant !closing ==> net.failed || |net.got| >= i
    {
      var r := net.ReadBatch(calls[i].0, calls[i].1, closing);
    }
    PrefixOfLog(net.got, Messages(net.start), log);
  }

  lemma ReadPrefix(sub: Subscription, e: Frame, s: Bytes, batches: seq<seq<Msg>>)
    requires sub.partition.Valid() && sub in sub.partition.everyone && e.op == OP_ERROR
    requires sub.partition.k.subs[sub.id].batches == batches && s <= Wire(Streamed(e, batches))
    ensures Leftover(s) == [] && Messages(s) <= sub.partition.store.msgs
    ensures forall k :: 0 <= k < |Messages(s)| ==> Messages(s)[k].offset as int == k
  {
    hide K.Run, Streamed, Wire, Messages, Leftover;
    QuietAfterError(e, batches, s);
    EndToEnd(false, sub.partition.trace, sub.id, e, s);
  }

  /** A subscription at the end of its log whose batches have all been pushed: uncut, the stream holds the whole log. */
  lemma CaughtUp(sub: Subscription, e: Frame, batches: seq<seq<Msg>>)
    requires sub.partition.Valid() && sub in sub.partition.everyone && sub.offset as int >= |sub.partition.store.msgs|
    requires sub.partition.k.subs[sub.id].batches == batches && forall j :: 0 <= j < |batches| ==> !Oversize(batches[j])
    ensures Messages(Wire(Streamed(e, batches))) == sub.partition.store.msgs
  {
    hide K.Run, Streamed, Wire, Messages, Oversize;
    NothingMissing(e, batches);
    Broadcast.ExactlyOnceInOrder(false, sub.partition.trace, sub.id);
    var log := sub.partition.store.msgs;
    assert log[..|log|] == log;
  }

  lemma PrefixOfLog(got: seq<Msg>, all: seq<Msg>, log: seq<Msg>)
    requires got <= all <= log && forall k :: 0 <= k < |all| ==> all[k].offset as int == k
    ensures got <= log && forall k :: 0 <= k < |got| ==> got[k].offset as int == k
  {
  }
}
