/**
 One turn of handleConn's loop (network/server.go:199-320) on the objects: a frame is
 read off the connection's stream, the broker object is called, and the answer written.
 It is proved to do what `Requests.Handle` says, and so to keep all that is proved there.
 */
module Handlers {
  import opened Words
  import opened Codec
  import opened Frames
  import opened Store
  import opened Writers
  import opened Requests
  import opened Partitions
  import K = Kernel
  import F = Facade
  import Decoders
  import Broadcast
  import Delivery
  import opened HeaderPool

  /** All of an answer that went out: nothing of none, and nothing of one too large to send. */
  ghost predicate Written(reply: Option<Frame>, limit: nat, out0: Bytes, out1: Bytes) {
    out1 == if reply.Some? && Sendable(reply.value) then Take(out0 + EncodeFrame(reply.value), limit) else out0
  }

  /** Whether respond reports no error, so that the connection may go on. */
  ghost predicate Through(reply: Option<Frame>, limit: nat, out0: Bytes) {
    reply.Some? ==> Sendable(reply.value) && |out0| + |EncodeFrame(reply.value)| <= limit
  }

  class Server {
    const c: Config
    const broker: F.Broker

    constructor (config: Config, b: F.Broker)
      ensures c == config && broker == b
    {
      c, broker := config, b;
    }

    /** The broker object, valid, with the logs and the flag of `b`. */
    ghost predicate Shows(b: Broker)
      reads broker, broker.created, set p, o | p in broker.created && o in F.Foot(p) :: o, broker.topics.Values,
            set p | p in broker.topics.Values :: p.store
    {
      broker.Valid() && broker.maxTopics == c.maxTopics && b == Broker.Broker(broker.Logs(), broker.closed)
    }

    /** A subscription to the topic as the push loop takes it over: at the start of the log, with nobody reading. */
    ghost predicate Opened(s: Subscription, topic: Bytes)
      reads broker, broker.topics.Values, set p | p in broker.topics.Values :: p.store,
            set p, o | p in broker.topics.Values && o in p.everyone :: o, s
    {
      topic in broker.topics && F.AtStart(s, broker.topics[topic])
    }

    /** What a turn on `f` leaves to be streamed is a new subscription to the topic `Handle` names. */
    ghost predicate HandsOver(sub: Option<Subscription>, f: Frame, b: Broker)
      requires Room(b, f)
      reads broker, broker.topics.Values, set p | p in broker.topics.Values :: p.store,
            set p, o | p in broker.topics.Values && o in p.everyone :: o, if sub.Some? then {sub.value} else {}
    {
      sub.Some? ==> Handle(c, b, f).stream.Some? && Opened(sub.value, Handle(c, b, f).stream.value)
    }

    method CreateTopic(f: Frame, ghost b: Broker) returns (r: Result<Bytes>)
      requires Shows(b)
      modifies broker
      ensures Shows(Requests.CreateTopic(c, b, f.payload).0)
      ensures r == Mapped(Requests.CreateTopic(c, b, f.payload).1, _ => [])
    {
      hide F.Held, F.OneToOne;
      var made := broker.CreateTopic(f.payload);
      r := if made.Ok? then Ok([]) else Err(made.error);
    }

    method PublishMessage(topic: Bytes, msg: Bytes, ghost b: Broker) returns (r: Result<int64>)
      requires Shows(b) && (topic in b.logs ==> |b.logs[topic]| < MAX_INT64)
      modifies broker, set p, o | p in broker.created && o in F.Foot(p) :: o
      ensures var (b', r') := if TooLong([msg]) then (b, Err(TooLarge)) else PublishTo(b, topic, [msg]);
              Shows(b') && r == r'
    {
      hide F.Held, F.OneToOne, Appended;
      assert [msg][0] == msg;
      if |msg| > MAX_MESSAGE {
        return Err(TooLarge);
      }
      r := broker.Publish(topic, msg);
    }

    /** OpPublish and OpPublishNoAck; what is answered, if anything, is the result. */
    method PublishOne(f: Frame, ghost b: Broker) returns (r: Result<Bytes>)
      requires Shows(b) && Room(b, f) && Sendable(f) && (f.op == OP_PUBLISH || f.op == OP_PUBLISH_NO_ACK)
      modifies broker, set p, o | p in broker.created && o in F.Foot(p) :: o
      ensures Shows(HandlePublish(c, b, f).b)
      ensures HandlePublish(c, b, f).reply == if f.op == OP_PUBLISH then Some(ReplyFrame(c, f, r)) else None
    {
      hide F.Held, F.OneToOne, Encode, Appended, PublishTo, TooLong;
      var body: Slice := f.payload;
      var v := Decoders.DecodePublish(body);
      if v.Err? {
        return Err(v.error);
      }
      ParsedKind(KPublish, body);
      RoomFor(b, f, v.value);
      var off := PublishMessage(v.value.topic, v.value.msg, b);
      r := if off.Ok? then Ok(MarshalOffset(off.value)) else Err(off.error);
    }

    /** publishBatch: all sizes are checked before anything is published. */
    method PublishBatch(topic: Bytes, msgs: seq<Bytes>, ghost b: Broker) returns (r: Result<int64>)
      requires Shows(b) && (topic in b.logs ==> |b.logs[topic]| + |msgs| <= MAX_INT64)
      modifies broker, set p, o | p in broker.created && o in F.Foot(p) :: o
      ensures var (b', r') := if TooLong(msgs) then (b, Err(TooLarge)) else PublishTo(b, topic, msgs);
              Shows(b') && r == r'
    {
      hide F.Held, F.OneToOne, Appended;
      for i := 0 to |msgs|
        invariant Shows(b) && forall j :: 0 <= j < i ==> |msgs[j]| <= MAX_MESSAGE
      {
        if |msgs[i]| > MAX_MESSAGE {
          return Err(TooLarge);
        }
      }
      r := broker.PublishBatch(topic, msgs);
      if msgs == [] && topic in b.logs {
        AppendedNothing(b.logs[topic]);
        assert b.logs[topic := b.logs[topic]] == b.logs;
      }
    }

    /** OpPublishBatch */
    method PublishMany(f: Frame, ghost b: Broker) returns (r: Result<Bytes>)
      requires Shows(b) && Room(b, f) && Sendable(f) && f.op == OP_PUBLISH_BATCH
      modifies broker, set p, o | p in broker.created && o in F.Foot(p) :: o
      ensures Shows(HandlePublish(c, b, f).b)
      ensures HandlePublish(c, b, f).reply == Some(ReplyFrame(c, f, r))
    {
      hide F.Held, F.OneToOne, Encode, Appended, PublishTo;
      var body: Slice := f.payload;
      var v := Decoders.DecodePublishBatch(body);
      if v.Err? {
        return Err(v.error);
      }
      ParsedKind(KBatch, body);
      RoomFor(b, f, v.value);
      var base := PublishBatch(v.value.topic, v.value.msgs, b);
      r := if base.Ok? then Ok(EncodePublishAck(base.value, |v.value.msgs|)) else Err(base.error);
    }

    /** OpListTopics; a list too long for one frame is an error. */
    method ListTopics(f: Frame, ghost b: Broker) returns (r: Result<Bytes>)
      requires Shows(b) && f.op == OP_LIST_TOPICS
      ensures r == var body := Encode(Topics(c.order(b.logs.Keys)));
                   if b.closed then Err(Closed) else if |body| > MAX_PAYLOAD then Err(TooLarge) else Ok(body)
    {
      hide F.Held, F.OneToOne, Encode;
      if broker.closed {
        return Err(Closed);
      }
      var body := Decoders.EncodeTopics(c.order(broker.topics.Keys));
      r := if |body| > MAX_PAYLOAD then Err(TooLarge) else Ok(body);
    }

    /** OpSubscribe: the subscription, from the start of the topic's log, or why there is none. */
    method Subscribe(f: Frame, ghost b: Broker) returns (r: Result<Subscription>)
      requires Shows(b)
      modifies broker, set p, o | p in broker.created && o in F.Foot(p) :: o
      ensures Shows(b) && broker.topics == old(broker.topics)
      ensures r.Err? ==> r.error == if b.closed then Closed else TopicNotFound
      ensures r.Ok? <==> !b.closed && f.payload in b.logs
      ensures r.Ok? ==> fresh(r.value) && Opened(r.value, f.payload)
    {
      hide F.Held, F.OneToOne, F.AtStart;
      assert f.payload in broker.topics ==> broker.topics[f.payload] in F.Foot(broker.topics[f.payload]);
      r := broker.Subscribe(f.payload);
    }

    /** respond; writing to the connection leaves the broker alone. */
    method Reply(w: Writer, f: Frame, r: Result<Bytes>, ghost b: Broker) returns (more: bool)
      requires w.Valid() && Shows(b)
      modifies w
      ensures w.Valid() && Shows(b) && Written(Some(ReplyFrame(c, f, r)), w.limit, old(w.out), w.out)
      ensures more <==> Through(Some(ReplyFrame(c, f, r)), w.limit, old(w.out))
    {
      hide F.Held, F.OneToOne, Encode, EncodeFrame;
      var out := ReplyFrame(c, f, r);
      assert forall p :: p in broker.created ==> w !in F.Foot(p);
      var sent := WriteFrame(w, out.op, out.payload);
      more := sent.Ok?;
    }

    method Receive(br: Stream, ghost b: Broker) returns (f: Result<Frame>)
      requires Shows(b)
      modifies br
      ensures Shows(b) && (f, br.data) == NextFrame(old(br.data)) && (f.Ok? ==> Sendable(f.value))
      ensures forall p :: p in broker.created ==> F.Foot(p) == old(F.Foot(p)) && br !in F.Foot(p)
    {
      hide F.Held, F.OneToOne, EncodeFrame;
      assert forall p :: p in broker.created ==> br !in F.Foot(p);
      f := br.ReadFrame();
      if f.Ok? {
        NextFrameIff(old(br.data), f.value);
      }
    }

    /**
     One turn of the loop.  An unreadable frame ends the connection, an oversize one after
     an error frame; a readable one does to the broker and to the connection what `Handle` says.
     */
    method Turn(br: Stream, w: Writer, ghost b: Broker)
      returns (more: bool, sub: Option<Subscription>, ghost after: Broker)
      requires Shows(b) && w.Valid() && (NextFrame(br.data).0.Ok? ==> Room(b, NextFrame(br.data).0.value))
      modifies br, w, broker, set p, o | p in broker.created && o in F.Foot(p) :: o
      ensures w.Valid() && Shows(after) && br.data == NextFrame(old(br.data)).1
      ensures match NextFrame(old(br.data)).0
              case Ok(f) =>
                Turned(c, f, b, after, more, sub.Some?, w.limit, old(w.out), w.out)
                && HandsOver(sub, f, b) && (sub.Some? ==> fresh(sub.value))
              case Err(e) =>
                after == b && !more && sub == None
                && Written(if e == TooLarge then Some(ErrorFrame(c, TooLarge, [])) else None, w.limit, old(w.out), w.out)
    {
      hide Handle, NextFrame, EncodeFrame, ErrorFrame, F.Held, F.OneToOne, F.AtStart, Turned, Written, Room;
      var f := Receive(br, b);
      after := b;
      sub := None;
      if f.Err? {
        if f.error == TooLarge {
          var ignored := Reply(w, Frame(OP_ERROR, []), Err(TooLarge), b);
        } else {
          NothingWritten(w.limit, w.out);
        }
        more := false;
      } else {
        more, sub, after := TurnOn(w, f.value, b);
      }
    }

    method TurnOn(w: Writer, f: Frame, ghost b: Broker)
      returns (more: bool, sub: Option<Subscription>, ghost after: Broker)
      requires Shows(b) && w.Valid() && Room(b, f) && Sendable(f)
      modifies w, broker, set p, o | p in broker.created && o in F.Foot(p) :: o
      ensures w.Valid() && Shows(after)
      ensures Turned(c, f, b, after, more, sub.Some?, w.limit, old(w.out), w.out)
      ensures HandsOver(sub, f, b) && (sub.Some? ==> fresh(sub.value))
    {
      hide Handle, EncodeFrame, F.Held, F.OneToOne, ReplyFrame, F.AtStart;
      var r: Option<Result<Bytes>>;
      r, sub := Dispatch(f, b);
      after := Handle(c, b, f).b;
      more := true;
      if r.Some? {
        more := Reply(w, f, r.value, after);
      }
      if sub.Some? {
        sub, more := if more then sub else None, false;
      }
    }

    /**
     The switch on the opcode: what to answer, if anything, and the subscription to stream.
     Clients should not send messages or errors, which are passed over.
     */
    method Dispatch(f: Frame, ghost b: Broker) returns (r: Option<Result<Bytes>>, sub: Option<Subscription>)
      requires Shows(b) && Room(b, f) && Sendable(f)
      modifies broker, set p, o | p in broker.created && o in F.Foot(p) :: o
      ensures Shows(Handle(c, b, f).b)
      ensures Handle(c, b, f).reply == if r.Some? then Some(ReplyFrame(c, f, r.value)) else None
      ensures sub.Some? <==> Handle(c, b, f).stream.Some?
      ensures HandsOver(sub, f, b) && (sub.Some? ==> fresh(sub.value))
    {
      hide HandlePublish, Encode, F.Held, F.OneToOne, F.AtStart;
      r, sub := None, None;
      if f.op == OP_CREATE_TOPIC {
        var made := CreateTopic(f, b);
        r := Some(made);
      } else if f.op == OP_PUBLISH {
        var off := PublishOne(f, b);
        r := Some(off);
      } else if f.op == OP_PUBLISH_BATCH {
        var ack := PublishMany(f, b);
        r := Some(ack);
      } else if f.op == OP_PUBLISH_NO_ACK {
        var ignored := PublishOne(f, b);
      } else if f.op == OP_LIST_TOPICS {
        var list := ListTopics(f, b);
        r := Some(list);
      } else if f.op == OP_SUBSCRIBE {
        var s := Subscribe(f, b);
        r := Some(if s.Ok? then Ok([]) else Err(s.error));
        if s.Ok? {
          sub := Some(s.value);
        }
      }
    }

    /**
     After such a turn: the connection carries what the new subscription reads from the start
     of its topic's log, and when the loop is over the subscription is out of the partition.
     */
    method Stream(pool: Pool, w: Writer, e: Frame, sub: Subscription, topic: Bytes, o: Others, turns: nat, ghost b: Broker)
      returns (ghost batches: seq<seq<Msg>>, end: Delivery.End)
      requires Shows(b) && Opened(sub, topic) && pool.Valid() && w.Valid() && e.op == OP_ERROR
      modifies pool, pool.idle, w, sub.partition, sub.partition.store, sub.partition.everyone
      ensures w.Valid() && broker.topics == old(broker.topics) && sub.partition == broker.topics[topic]
      ensures w.out == Take(old(w.out) + Wire(Delivery.Streamed(e, batches)), w.limit)
      ensures Flatten(batches) <= sub.partition.store.msgs && (end.Waiting? ==> Flatten(batches) == sub.partition.store.msgs)
      ensures end.ReadFailed? || end.WriteFailed? ==> sub.done && sub !in sub.partition.subs
    {
      hide F.Held, F.OneToOne, Whole, K.Run, K.Apply, Delivery.Streamed, Wire, Flatten, Apart;
      WholeIsValid(sub.partition);
      batches, end := Delivery.Stream(pool, w, e, sub, o, turns);
      Delivery.Stands(sub, false);
      ReadFromLog(sub, batches);
      if !end.Waiting? && !end.Watched? {
        Leave(sub);
      }
    }
  }

  /** The deferred sub.Close(). */
  method Leave(sub: Subscription)
    requires sub.partition.Valid() && sub in sub.partition.everyone
    modifies sub.partition, sub
    ensures sub.done && sub !in sub.partition.subs
  {
    hide K.Run;
    sub.partition.Unsubscribe(sub);
  }

  /** What a subscription has read in all is the front of its partition's log. */
  lemma ReadFromLog(sub: Subscription, batches: seq<seq<Msg>>)
    requires sub.partition.Valid() && sub in sub.partition.everyone
    requires sub.partition.k.subs[sub.id].batches == batches
    ensures Flatten(batches) <= sub.partition.store.msgs
    ensures sub.offset as int >= |sub.partition.store.msgs| ==> Flatten(batches) == sub.partition.store.msgs
  {
    hide K.Run;
    Broadcast.ExactlyOnceInOrder(false, sub.partition.trace, sub.id);
    var log := sub.partition.store.msgs;
    assert log[..|log|] == log;
  }

  lemma NothingWritten(limit: nat, out: Bytes)
    ensures Written(None, limit, out, out)
  {
  }

  /** A turn on a readable frame; `streaming`: from here on the connection only pushes. */
  ghost predicate Turned(c: Config, f: Frame, b: Broker, after: Broker, more: bool, streaming: bool,
                         limit: nat, out0: Bytes, out1: Bytes)
    requires Room(b, f)
  {
    var h := Handle(c, b, f);
    after == h.b && Written(h.reply, limit, out0, out1)
    && (more <==> Through(h.reply, limit, out0) && h.stream == None)
    && (streaming <==> Through(h.reply, limit, out0) && h.stream.Some?)
  }

  lemma AppendedNothing(log: seq<Msg>)
    requires |log| <= MAX_INT64
    ensures Appended(log, []) == log
  {
  }

  function MarshalOffset(off: int64): (b: Bytes)
    ensures b == Encode(Offset(off))
  {
    PutI64(off)
  }

  function EncodePublishAck(base: int64, n: int): (b: Bytes)
    ensures b == Encode(Ack(base, U32(n)))
  {
    PutI64(base) + PutU32(U32(n))
  }
}
