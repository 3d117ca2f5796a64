/**
 The client object (network/client.go:61-256 and 345-440): its calls, each checking its
 arguments, writing one request through the direct writers and reading one answer, while
 another goroutine may close the client at any time.
 */
module Clients {
  import opened Words
  import opened Frames
  import opened Writers
  import opened Requests
  import opened Names
  import Codec
  import Decoders

  // ---- the size check ----

  /** What the writer of the request finds about its size, in an `int` of this width. */
  predicate WriterRefuses(width: Width, q: Request) {
    match q
    case PublishMany(topic, payloads) => RefusesBatch(width, topic, payloads)
    case PublishOne(topic, payload) => Measured(width, Codec.Publish(topic, payload)) > MAX_PAYLOAD
    case PublishAsync(topic, payload) => Measured(width, Codec.Publish(topic, payload)) > MAX_PAYLOAD
    case _ => !Sendable(FrameOf(q))
  }

  /** A request that passes every other check is refused as it should be exactly when its length is decided rightly. */
  lemma ChecksAgreeIff(width: Width, q: Request, streaming: bool)
    requires RefusalBy(q, false, streaming, false) == None
    ensures RefusalBy(q, false, streaming, WriterRefuses(width, q)) == Refusal(q, false, streaming)
            <==> (q.PublishMany? ==> DecidedRightly(width, |FrameOf(q).payload|))
  {
    if q.PublishMany? {
      BatchCheckIff(width, q.topic, q.payloads);
    } else if q.PublishOne? || q.PublishAsync? {
      assert PayloadsOf(q)[0] == q.payload;
      PublishCheckExact(width, q.topic, q.payload);
    }
  }

  // ---- what a call does ----

  /** The client's side of the connection: its flags, what it has written and what it has not read yet. */
  datatype Ends = Ends(closed: bool, streaming: bool, out: Bytes, data: Bytes)

  /** A client is closed for good, and during a call only by somebody else, if anybody closes it then (`closing`). */
  predicate ClosedBy(closing: bool, before: bool, after: bool) {
    (before ==> after) && (after ==> before || closing)
  }

  /** Nothing but the close of somebody else has happened. */
  ghost predicate Untouched(e0: Ends, e1: Ends) {
    e1 == e0.(closed := e1.closed) && (e0.closed ==> e1.closed)
  }

  /** opErr: a failure on a client that somebody has closed meanwhile may be reported as that. */
  ghost predicate Broke(o: Outcome, e: Error, closed: bool) {
    o == Failed(e) || (closed && o == Failed(Closed))
  }

  /** The request has gone out, whole or cut where the connection fails, and one answer was read if one was due. */
  ghost predicate Exchanged(q: Request, o: Outcome, limit: nat, e0: Ends, e1: Ends) {
    var wire := EncodeFrame(FrameOf(q));
    e1.out == Take(e0.out + wire, limit) && (e0.closed ==> e1.closed)
    && if |e0.out| + |wire| > limit then Broke(o, Io, e1.closed) && e1.data == e0.data
       else if q.PublishAsync? then o == Handed && e1.data == e0.data
       else
         e1.data == NextFrame(e0.data).1
         && match NextFrame(e0.data).0
            case Ok(f) => o == Answer(q, f)
            case Err(e) => Broke(o, e, e1.closed)
  }

  /**
   The effect of a call: refused by its checks, or overtaken by a close, it touches
   nothing; otherwise it makes its one exchange.
   */
  ghost predicate Did(width: Width, q: Request, o: Outcome, limit: nat, e0: Ends, e1: Ends) {
    (Untouched(e0, e1) && e1.closed && o == Failed(Closed))
    || match RefusalBy(q, e0.closed, e0.streaming, WriterRefuses(width, q))
       case Some(e) => Untouched(e0, e1) && o == Failed(e)
       case None => Exchanged(q, o, limit, e0, e1) && e1.streaming == (o == Subscribed)
  }

  ghost function OutcomeOf(q: Request, r: Result<Bytes>): Outcome {
    match r
    case Ok(body) => Understood(q, body)
    case Err(e) => Failed(e)
  }

  /** What came of asking, all checks of the arguments having passed. */
  ghost predicate Asked(width: Width, q: Request, r: Result<Bytes>, limit: nat, e0: Ends, e1: Ends) {
    e1.streaming == e0.streaming
    && ((Untouched(e0, e1) && e1.closed && r == Err(Closed))
        || if WriterRefuses(width, q) then Untouched(e0, e1) && r == Err(TooLarge)
           else Exchanged(q, OutcomeOf(q, r), limit, e0, e1))
  }

  /** The same for a client that may be streaming. */
  ghost predicate Tried(width: Width, q: Request, r: Result<Bytes>, limit: nat, e0: Ends, e1: Ends) {
    if e0.streaming then Untouched(e0, e1) && (r == Err(Error.Streaming) || (e1.closed && r == Err(Closed)))
    else Asked(width, q, r, limit, e0, e1)
  }

  /** From the body of the answer to the outcome of the call. */
  lemma Concluded(width: Width, q: Request, r: Result<Bytes>, o: Outcome, limit: nat, e0: Ends, e1: Ends)
    requires !e0.closed && Tried(width, q, r, limit, e0, e1)
    requires RefusalBy(q, false, false, false) == None && !q.PublishAsync? && !q.Subscribe?
    requires o == OutcomeOf(q, r)
    ensures Did(width, q, o, limit, e0, e1)
  {
    hide NextFrame, EncodeFrame, FrameOf, TooLong, NameError, ResponseBody, WriterRefuses;
    NotSubscribed(q, r);
  }

  /** Comparing the count as an `int` with the number of payloads comes to the same as comparing it unsigned. */
  lemma AckUnderstood(width: Width, q: Request, body: Bytes, r: Result<(int64, int)>)
    requires q.PublishMany? && |q.payloads| < Span(width) / 2
    requires forall v :: Codec.Reads(Codec.KAck, body, v) ==> r == Ok((v.base, Wrap(width, v.count as int)))
    requires (r.Ok? ==> exists v :: Codec.Reads(Codec.KAck, body, v)) && (r.Err? ==> r == Err(Truncated))
    ensures Understood(q, body) ==
            if r.Err? then Failed(r.error) else if r.value.1 != |q.payloads| then Failed(Mismatch) else Published(r.value.0)
  {
    hide Codec.Encode, Codec.Parsed, Wrap;
    if v :| Codec.Reads(Codec.KAck, body, v) {
      Codec.ParsedIff(Codec.KAck, body, v);
      CountSame(width, v.count, |q.payloads|);
    } else {
      var p := Codec.Parsed(Codec.KAck, body);
      Codec.ParsedIff(Codec.KAck, body, if p.Ok? then p.value else Codec.Ack(0, 0));
    }
  }

  lemma CountSame(width: Width, count: uint32, n: nat)
    requires n < Span(width) / 2
    ensures Wrap(width, count as int) == n <==> count as int == n
  {
  }

  /** Only a Subscribe ends in a subscription. */
  lemma NotSubscribed(q: Request, r: Result<Bytes>)
    requires !q.Subscribe?
    ensures OutcomeOf(q, r) != Subscribed
  {
  }

  /** A call that fails its checks before anything is written. */
  lemma RefusedAtOnce(width: Width, q: Request, e: Error, limit: nat, e0: Ends, e1: Ends)
    requires RefusalBy(q, e0.closed, e0.streaming, WriterRefuses(width, q)) == Some(e) && Untouched(e0, e1)
    ensures Did(width, q, Failed(e), limit, e0, e1)
  {
  }

  class Client {
    const width: Width
    const bw: Writer
    const br: Stream
    var streaming: bool
    var closed: bool

    constructor (platform: Width, writer: Writer, reader: Stream)
      ensures width == platform && bw == writer && br == reader && !streaming && !closed
    {
      width, bw, br, streaming, closed := platform, writer, reader, false, false;
    }

    ghost function View(): Ends
      reads this, bw, br
    {
      Ends(closed, streaming, bw.out, br.data)
    }

    method Close()
      modifies this`closed
      ensures closed
    {
      closed := true;
    }

    /** Another goroutine may call Close, if anybody does during the call. */
    method Others(closing: bool)
      modifies this`closed
      ensures ClosedBy(closing, old(closed), closed)
    {
      var now: bool := *;
      if closing && now {
        Close();
      }
    }

    method OpErr(e: Error, closing: bool) returns (r: Error)
      modifies this`closed
      ensures ClosedBy(closing, old(closed), closed) && (r == e || (closed && r == Closed))
    {
      Others(closing);
      r := if closed then Closed else e;
    }

    /** The `write` argument of roundTripWriteLocked: one frame, or nothing when the writer finds it too large. */
    method WriteRequest(q: Request) returns (r: Result<()>)
      requires bw.Valid()
      modifies bw
      ensures bw.Valid()
      ensures Wrote(WriterRefuses(width, q), EncodeFrame(FrameOf(q)), r, bw.limit, old(bw.out), bw.out)
    {
      match q
      case Create(name) =>
        r := WriteFrame(bw, OP_CREATE_TOPIC, name);
      case ListTopics =>
        r := WriteFrame(bw, OP_LIST_TOPICS, []);
      case Subscribe(topic) =>
        r := WriteFrame(bw, OP_SUBSCRIBE, topic);
      case PublishOne(topic, payload) =>
        r := WritePublishOp(width, bw, OP_PUBLISH, topic, payload);
      case PublishAsync(topic, payload) =>
        r := WritePublishOp(width, bw, OP_PUBLISH_NO_ACK, topic, payload);
      case PublishMany(topic, payloads) =>
        r := WritePublishBatch(width, bw, topic, payloads);
    }

    /** The reading half of roundTripWriteLocked. */
    method ReadAnswer(op: byte, closing: bool) returns (r: Result<Bytes>)
      modifies br, this`closed
      ensures ClosedBy(closing, old(closed), closed) && br.data == NextFrame(old(br.data)).1 && (r.Ok? ==> |r.value| <= MAX_PAYLOAD)
      ensures match NextFrame(old(br.data)).0
              case Ok(f) => r == ResponseBody(op, f)
              case Err(e) => r == Err(e) || (closed && r == Err(Closed))
    {
      var f := br.ReadFrame();
      if f.Err? {
        var e := OpErr(f.error, closing);
        return Err(e);
      }
      NextFrameIff(old(br.data), f.value);
      hide NextFrame;
      if f.value.op == OP_ERROR {
        var body: Codec.Slice := f.value.payload;
        var v := Decoders.DecodeError(body);
        if v.Err? {
          return Err(v.error);
        }
        Codec.ParsedIff(Codec.KError, body, v.value);
        return Err(Remote(v.value.code));
      } else if f.value.op == op {
        return Ok(f.value.payload);
      }
      r := Err(Unexpected);
    }

    /** roundTripWriteLocked */
    method RoundTrip(q: Request, closing: bool) returns (r: Result<Bytes>)
      requires bw.Valid() && !q.PublishAsync?
      modifies bw, br, this`closed
      ensures bw.Valid() && ClosedBy(closing, old(closed), closed)
      ensures Asked(width, q, r, bw.limit, old(View()), View()) && (r.Ok? ==> |r.value| <= MAX_PAYLOAD)
    {
      hide NextFrame, EncodeFrame, FrameOf, ResponseBody, WriterRefuses, Understood;
      var sent := WriteRequest(q);
      if sent.Err? {
        var e := OpErr(sent.error, closing);
        return Err(e);
      }
      r := ReadAnswer(FrameOf(q).op, closing);
    }

    /** roundTripWrite */
    method RoundTripWrite(q: Request, closing: bool) returns (r: Result<Bytes>)
      requires bw.Valid() && !q.PublishAsync?
      modifies bw, br, this`closed
      ensures bw.Valid() && ClosedBy(closing, old(closed), closed) && (r.Ok? ==> |r.value| <= MAX_PAYLOAD)
      ensures Tried(width, q, r, bw.limit, old(View()), View())
    {
      hide NextFrame, EncodeFrame, FrameOf, ResponseBody, WriterRefuses, Understood;
      Others(closing);
      if closed {
        return Err(Closed);
      }
      if streaming {
        return Err(Error.Streaming);
      }
      r := RoundTrip(q, closing);
    }

    method CreateTopic(name: Bytes, closing: bool) returns (o: Outcome)
      requires bw.Valid()
      modifies bw, br, this`closed
      ensures bw.Valid() && ClosedBy(closing, old(closed), closed)
      ensures Did(width, Create(name), o, bw.limit, old(View()), View())
    {
      hide Did, Tried;
      var q := Create(name);
      if closed {
        RefusedAtOnce(width, q, Closed, bw.limit, View(), View());
        return Failed(Closed);
      }
      var wrong := ValidateTopicName(name);
      if wrong.Some? {
        RefusedAtOnce(width, q, wrong.value, bw.limit, View(), View());
        return Failed(wrong.value);
      }
      var r := RoundTripWrite(q, closing);
      o := if r.Ok? then Created else Failed(r.error);
      Concluded(width, q, r, o, bw.limit, old(View()), View());
    }

    method ListTopics(closing: bool) returns (o: Outcome)
      requires bw.Valid()
      modifies bw, br, this`closed
      ensures bw.Valid() && ClosedBy(closing, old(closed), closed)
      ensures Did(width, Request.ListTopics, o, bw.limit, old(View()), View())
    {
      hide Did, Tried;
      var q := Request.ListTopics;
      if closed {
        RefusedAtOnce(width, q, Closed, bw.limit, View(), View());
        return Failed(Closed);
      }
      var r := RoundTripWrite(q, closing);
      if r.Ok? {
        var v := Decoders.DecodeTopics(r.value);
        Codec.ParsedIff(Codec.KTopics, r.value, if v.Ok? then v.value else Codec.Offset(0));
        o := if v.Ok? then Listed(v.value.names) else Failed(v.error);
      } else {
        o := Failed(r.error);
      }
      Concluded(width, q, r, o, bw.limit, old(View()), View());
    }

    method Publish(topic: Bytes, payload: Bytes, closing: bool) returns (o: Outcome)
      requires bw.Valid()
      modifies bw, br, this`closed
      ensures bw.Valid() && ClosedBy(closing, old(closed), closed)
      ensures Did(width, PublishOne(topic, payload), o, bw.limit, old(View()), View())
    {
      hide Did, Tried;
      var q := PublishOne(topic, payload);
      assert PayloadsOf(q)[0] == payload;
      if closed {
        RefusedAtOnce(width, q, Closed, bw.limit, View(), View());
        return Failed(Closed);
      }
      var wrong := ValidateTopicName(topic);
      if wrong.Some? {
        RefusedAtOnce(width, q, wrong.value, bw.limit, View(), View());
        return Failed(wrong.value);
      }
      if |payload| > MAX_MESSAGE {
        RefusedAtOnce(width, q, TooLarge, bw.limit, View(), View());
        return Failed(TooLarge);
      }
      var r := RoundTripWrite(q, closing);
      if r.Ok? {
        var v := Decoders.UnmarshalOffset(r.value);
        Codec.ParsedIff(Codec.KOffset, r.value, if v.Ok? then v.value else Codec.Offset(0));
        o := if v.Ok? then Published(v.value.offset) else Failed(v.error);
      } else {
        o := Failed(r.error);
      }
      Concluded(width, q, r, o, bw.limit, old(View()), View());
    }

    /** `payloads` is a Go slice: its length is an `int`. */
    method PublishBatch(topic: Bytes, payloads: seq<Bytes>, closing: bool) returns (o: Outcome)
      requires bw.Valid() && |payloads| < Span(width) / 2
      modifies bw, br, this`closed
      ensures bw.Valid() && ClosedBy(closing, old(closed), closed)
      ensures Did(width, PublishMany(topic, payloads), o, bw.limit, old(View()), View())
    {
      hide Did, Tried;
      var q := PublishMany(topic, payloads);
      if closed {
        RefusedAtOnce(width, q, Closed, bw.limit, View(), View());
        return Failed(Closed);
      }
      if |payloads| == 0 {
        RefusedAtOnce(width, q, EmptyBatch, bw.limit, View(), View());
        return Failed(EmptyBatch);
      }
      var wrong := ValidateTopicName(topic);
      if wrong.Some? {
        RefusedAtOnce(width, q, wrong.value, bw.limit, View(), View());
        return Failed(wrong.value);
      }
      for i := 0 to |payloads|
        invariant forall j :: 0 <= j < i ==> |payloads[j]| <= MAX_MESSAGE
      {
        if |payloads[i]| > MAX_MESSAGE {
          RefusedAtOnce(width, q, TooLarge, bw.limit, View(), View());
          return Failed(TooLarge);
        }
      }
      var r := RoundTripWrite(q, closing);
      if r.Ok? {
        var v := Decoders.DecodePublishAck(width, r.value);
        AckUnderstood(width, q, r.value, v);
        o := if v.Err? then Failed(v.error)
             else if v.value.1 != |payloads| then Failed(Mismatch) else Published(v.value.0);
      } else {
        o := Failed(r.error);
      }
      Concluded(width, q, r, o, bw.limit, old(View()), View());
    }

    /** PublishAsync: writes and does not wait. */
    method PublishAsync(topic: Bytes, payload: Bytes, closing: bool) returns (o: Outcome)
      requires bw.Valid()
      modifies bw, this`closed
      ensures bw.Valid() && ClosedBy(closing, old(closed), closed)
      ensures Did(width, Request.PublishAsync(topic, payload), o, bw.limit, old(View()), View())
    {
      hide NextFrame, EncodeFrame, FrameOf, WriterRefuses;
      var q := Request.PublishAsync(topic, payload);
      assert PayloadsOf(q)[0] == payload;
      if closed {
        return Failed(Closed);
      }
      if streaming {
        return Failed(Error.Streaming);
      }
      var wrong := ValidateTopicName(topic);
      if wrong.Some? {
        return Failed(wrong.value);
      }
      if |payload| > MAX_MESSAGE {
        return Failed(TooLarge);
      }
      var sent := WriteRequest(q);
      if sent.Err? {
        var e := OpErr(sent.error, closing);
        return Failed(e);
      }
      o := Handed;
    }

    /** Subscribe: from its success on the connection only carries pushes. */
    method Subscribe(topic: Bytes, closing: bool) returns (o: Outcome)
      requires bw.Valid()
      modifies this`streaming, bw, br, this`closed
      ensures bw.Valid() && ClosedBy(closing, old(closed), closed)
      ensures Did(width, Request.Subscribe(topic), o, bw.limit, old(View()), View())
    {
      hide NextFrame, EncodeFrame, FrameOf, ResponseBody, WriterRefuses;
      var q := Request.Subscribe(topic);
      if closed {
        return Failed(Closed);
      }
      if streaming {
        return Failed(Error.Streaming);
      }
      var wrong := ValidateTopicName(topic);
      if wrong.Some? {
        return Failed(wrong.value);
      }
      var r := RoundTrip(q, closing);
      if r.Err? {
        return Failed(r.error);
      }
      streaming := true;
      o := Subscribed;
    }
  }
}
