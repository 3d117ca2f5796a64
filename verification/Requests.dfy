/**
 One request: what the server makes of a frame (network/server.go:207-270, 367-382),
 and what the client makes of the answer (network/client.go:142-256, 386-431).  The
 broker is taken at the level of its calls: topic logs that only grow.
 */
module Requests {
  import opened Words
  import opened Codec
  import opened Frames
  import opened Store
  import opened Writers
  import opened Names

  /** How many messages the push loop reads from the log at a time. */
  const PUSH_BATCH := 64

  datatype Broker = Broker(logs: map<Bytes, seq<Msg>>, closed: bool)

  /**
   `text` is the wording of an error; `order` lists the names of a set of topics;
   `timeouts`: may a call give up waiting for its answer?
   */
  datatype Config = Config(timeouts: bool, maxTopics: int, text: (Error, Bytes) -> Bytes,
                           order: set<Bytes> -> seq<Bytes>)

  /** ListTopics lists every topic, and only topics. */
  ghost predicate Lists(c: Config) {
    forall names: set<Bytes> {:trigger c.order(names)} :: (set n | n in c.order(names)) == names
  }

  // ---- the broker's operations ----

  function CreateTopic(c: Config, b: Broker, name: Bytes): (Broker, Result<()>) {
    if b.closed then (b, Err(Closed))
    else if NameError(name).Some? then (b, Err(NameError(name).value))
    else if name in b.logs then (b, Err(TopicExists))
    else if c.maxTopics > 0 && |b.logs| >= c.maxTopics then (b, Err(TooManyTopics))
    else (b.(logs := b.logs[name := []]), Ok(()))
  }

  /** Publish and PublishBatch; an empty batch changes nothing and is told offset 0. */
  function PublishTo(b: Broker, topic: Bytes, payloads: seq<Bytes>): (Broker, Result<int64>)
    requires topic in b.logs ==> |b.logs[topic]| + |payloads| <= MAX_INT64
  {
    if b.closed then (b, Err(Closed))
    else if topic !in b.logs then (b, Err(TopicNotFound))
    else if payloads == [] then (b, Ok(0))
    else
      var log := b.logs[topic];
      (b.(logs := b.logs[topic := Appended(log, payloads)]), Ok(|log| as int64))
  }

  // ---- error codes ----

  /** errorCode: what an error is called on the wire. */
  function ErrorCode(e: Error): uint16 {
    match e
    case Closed => CODE_CLOSED
    case TopicExists => CODE_TOPIC_EXISTS
    case TopicNotFound => CODE_TOPIC_NOT_FOUND
    case EmptyTopicName => CODE_EMPTY_TOPIC_NAME
    case TopicNameTooLong => CODE_TOPIC_NAME_TOO_LONG
    case InvalidTopicName => CODE_INVALID_TOPIC_NAME
    case TooManyTopics => CODE_TOO_MANY_TOPICS
    case TooLarge => CODE_TOO_LARGE
    case _ => CODE_UNKNOWN
  }

  /** remoteError: the error that the receiver of a code can test for, if there is one. */
  function RemoteError(code: uint16): Option<Error> {
    if code == CODE_CLOSED then Some(Closed)
    else if code == CODE_TOPIC_EXISTS then Some(TopicExists)
    else if code == CODE_TOPIC_NOT_FOUND then Some(TopicNotFound)
    else if code == CODE_EMPTY_TOPIC_NAME then Some(EmptyTopicName)
    else if code == CODE_TOO_LARGE then Some(TooLarge)
    else if code == CODE_OVERLOADED then Some(Overloaded)
    else if code == CODE_TOPIC_NAME_TOO_LONG then Some(TopicNameTooLong)
    else if code == CODE_INVALID_TOPIC_NAME then Some(InvalidTopicName)
    else if code == CODE_TOO_MANY_TOPICS then Some(TooManyTopics)
    else None
  }

  /** The errors that a client can tell apart. */
  const SENTINELS := {Closed, TopicExists, TopicNotFound, EmptyTopicName, TopicNameTooLong, InvalidTopicName,
                      TooManyTopics, TooLarge}

  /** Exactly these come out of the wire as what went in; no other error is ever taken for one of them. */
  lemma SentinelsSurvive(e: Error)
    ensures RemoteError(ErrorCode(e)) == if e in SENTINELS then Some(e) else None
    ensures RemoteError(6) == Some(Overloaded)
  {
  }

  // ---- the server ----

  /** What handling a frame does: the broker afterwards, the answer if one is due, and the topic now streamed. */
  datatype Handled = Handled(b: Broker, reply: Option<Frame>, stream: Option<Bytes>)

  function ErrorFrame(c: Config, e: Error, about: Bytes): Frame {
    Frame(OP_ERROR, Encode(Failure(ErrorCode(e), c.text(e, about))))
  }

  /** The frame respond writes. */
  function ReplyFrame(c: Config, f: Frame, r: Result<Bytes>): Frame {
    if r.Ok? then Frame(f.op, r.value) else ErrorFrame(c, r.error, f.payload)
  }

  function Respond(c: Config, b: Broker, f: Frame, r: Result<Bytes>): Handled {
    Handled(b, Some(ReplyFrame(c, f, r)), None)
  }

  function Mapped<T, U>(r: Result<T>, f: T -> U): Result<U> {
    match r
    case Ok(x) => Ok(f(x))
    case Err(e) => Err(e)
  }

  /** The payloads of a decoded publish request. */
  function Batched(v: Body): seq<Bytes>
    requires v.Publish? || v.Batch?
  {
    if v.Publish? then [v.msg] else v.msgs
  }

  function PublishKind(op: byte): Kind {
    if op == OP_PUBLISH_BATCH then KBatch else KPublish
  }

  /** The three publishing opcodes: decode, refuse the whole request over one oversize message, publish. */
  ghost function HandlePublish(c: Config, b: Broker, f: Frame): (h: Handled)
    requires Room(b, f)
    ensures h.stream == None
  {
    match Parsed(PublishKind(f.op), f.payload)
    case Err(e) => if f.op == OP_PUBLISH_NO_ACK then Handled(b, None, None) else Respond(c, b, f, Err(e))
    case Ok(v) =>
      ParsedKind(PublishKind(f.op), f.payload);
      RoomFor(b, f, v);
      var (b', r) := if TooLong(Batched(v)) then (b, Err(TooLarge)) else PublishTo(b, v.topic, Batched(v));
      if f.op == OP_PUBLISH_NO_ACK then Handled(b', None, None)
      else Respond(c, b', f, Mapped(r, base =>
                                      if f.op == OP_PUBLISH then Encode(Offset(base)) else Encode(Ack(base, U32(|Batched(v)|)))))
  }

  /** One turn of handleConn's loop. */
  ghost function Handle(c: Config, b: Broker, f: Frame): Handled
    requires Room(b, f)
  {
    if f.op == OP_CREATE_TOPIC then
      var (b', r) := CreateTopic(c, b, f.payload);
      Respond(c, b', f, Mapped(r, _ => []))
    else if f.op == OP_PUBLISH || f.op == OP_PUBLISH_BATCH || f.op == OP_PUBLISH_NO_ACK then
      HandlePublish(c, b, f)
    else if f.op == OP_LIST_TOPICS then
      var body := Encode(Topics(c.order(b.logs.Keys)));
      Respond(c, b, f, if b.closed then Err(Closed) else if |body| > MAX_PAYLOAD then Err(TooLarge) else Ok(body))
    else if f.op == OP_SUBSCRIBE then
      if b.closed then Respond(c, b, f, Err(Closed))
      else if f.payload !in b.logs then Respond(c, b, f, Err(TopicNotFound))
      else Respond(c, b, f, Ok([])).(stream := Some(f.payload))
    else Handled(b, None, None)
  }

  /** Every log can still grow by what the frame may hold: a Go slice never gets longer than its index type. */
  ghost predicate Room(b: Broker, f: Frame) {
    forall t :: t in b.logs ==> |b.logs[t]| + |f.payload| <= MAX_INT64
  }

  lemma ParsedKind(k: Kind, p: Bytes)
    requires Parsed(k, p).Ok?
    ensures Reads(k, p, Parsed(k, p).value)
  {
  }

  lemma RoomFor(b: Broker, f: Frame, v: Body)
    requires Room(b, f) && Reads(v.Kind(), f.payload, v) && (v.Publish? || v.Batch?)
    ensures v.topic in b.logs ==> |b.logs[v.topic]| + |Batched(v)| <= MAX_INT64
  {
    if v.Batch? && v.msgs != [] {
      BlobsNotShorter(v.msgs);
    }
    assert |Batched(v)| <= |f.payload|;
  }

  /** Exactly the five asking opcodes are answered, each with one frame. */
  lemma AnsweredIff(c: Config, b: Broker, f: Frame)
    requires Room(b, f)
    ensures Handle(c, b, f).reply.Some? <==>
            f.op in {OP_CREATE_TOPIC, OP_PUBLISH, OP_PUBLISH_BATCH, OP_LIST_TOPICS, OP_SUBSCRIBE}
  {
  }

  // ---- accepted implies pushable ----

  ghost predicate Pushable(log: seq<Msg>) {
    forall i :: 0 <= i < |log| ==> |log[i].payload| <= MAX_MESSAGE
  }

  ghost predicate BrokerOk(b: Broker) {
    forall t :: t in b.logs ==> IsLog(b.logs[t]) && Pushable(b.logs[t])
  }

  /** Logs only grow. */
  ghost predicate Grown(b: Broker, b': Broker) {
    (b.closed ==> b'.closed) && forall t :: t in b.logs ==> t in b'.logs && b.logs[t] <= b'.logs[t]
  }

  lemma PublishKeeps(b: Broker, topic: Bytes, payloads: seq<Bytes>)
    requires BrokerOk(b) && !TooLong(payloads) && (topic in b.logs ==> |b.logs[topic]| + |payloads| <= MAX_INT64)
    ensures BrokerOk(PublishTo(b, topic, payloads).0) && Grown(b, PublishTo(b, topic, payloads).0)
  {
  }

  lemma CreateKeeps(c: Config, b: Broker, name: Bytes)
    requires BrokerOk(b)
    ensures BrokerOk(CreateTopic(c, b, name).0) && Grown(b, CreateTopic(c, b, name).0)
  {
  }

  /** Whatever frame arrives from whomever, no message is stored that could not be pushed, and nothing stored is lost. */
  lemma HandleKeeps(c: Config, b: Broker, f: Frame)
    requires BrokerOk(b) && Room(b, f)
    ensures BrokerOk(Handle(c, b, f).b) && Grown(b, Handle(c, b, f).b)
  {
    hide BrokerOk, PublishTo, CreateTopic;
    Unchanged(b);
    CreateKeeps(c, b, f.payload);
    var k := PublishKind(f.op);
    if Parsed(k, f.payload).Ok? {
      ParsedKind(k, f.payload);
      var v := Parsed(k, f.payload).value;
      RoomFor(b, f, v);
      if !TooLong(Batched(v)) {
        PublishKeeps(b, v.topic, Batched(v));
      }
    }
  }

  lemma Unchanged(b: Broker)
    ensures Grown(b, b)
  {
  }

  // ---- the client ----

  datatype Request =
    | Create(name: Bytes)
    | PublishOne(topic: Bytes, payload: Bytes)
    | PublishMany(topic: Bytes, payloads: seq<Bytes>)
    | PublishAsync(topic: Bytes, payload: Bytes)
    | ListTopics
    | Subscribe(topic: Bytes)

  datatype Outcome =
    | Pending
    | Created
    | Handed
    | Published(base: int64)
    | Listed(names: seq<Bytes>)
    | Subscribed
    | Failed(error: Error)

  function FrameOf(q: Request): Frame {
    match q
    case Create(name) => Frame(OP_CREATE_TOPIC, name)
    case PublishOne(t, m) => Frame(OP_PUBLISH, Encode(Body.Publish(t, m)))
    case PublishMany(t, ms) => Frame(OP_PUBLISH_BATCH, Encode(Batch(t, ms)))
    case PublishAsync(t, m) => Frame(OP_PUBLISH_NO_ACK, Encode(Body.Publish(t, m)))
    case ListTopics => Frame(OP_LIST_TOPICS, [])
    case Subscribe(t) => Frame(OP_SUBSCRIBE, t)
  }

  /** The payloads a request publishes. */
  function PayloadsOf(q: Request): seq<Bytes> {
    match q
    case PublishOne(_, m) => [m]
    case PublishMany(_, ms) => ms
    case PublishAsync(_, m) => [m]
    case _ => []
  }

  /** The checks a call makes before it writes, in the order of the code; `tooBig` is what the writer's own check finds. */
  function RefusalBy(q: Request, closed: bool, streaming: bool, tooBig: bool): Option<Error> {
    if closed then Some(Closed)
    else if q.PublishAsync? || q.Subscribe? then
      if streaming then Some(Error.Streaming)
      else if NameError(q.topic).Some? then NameError(q.topic)
      else if TooLong(PayloadsOf(q)) || tooBig then Some(TooLarge)
      else None
    else if q.PublishMany? && q.payloads == [] then Some(EmptyBatch)
    else if q.Create? && NameError(q.name).Some? then NameError(q.name)
    else if (q.PublishOne? || q.PublishMany?) && NameError(q.topic).Some? then NameError(q.topic)
    else if TooLong(PayloadsOf(q)) then Some(TooLarge)
    else if streaming then Some(Error.Streaming)
    else if tooBig then Some(TooLarge)
    else None
  }

  /** The refusals when the writer's check decides as it should. */
  function Refusal(q: Request, closed: bool, streaming: bool): Option<Error> {
    RefusalBy(q, closed, streaming, !Sendable(FrameOf(q)))
  }

  /** roundTripWriteLocked on the frame it reads: the body of an answer with the request's opcode. */
  ghost function ResponseBody(op: byte, f: Frame): Result<Bytes> {
    if f.op == OP_ERROR then
      match Parsed(KError, f.payload)
      case Ok(v) => Err(Remote(FailureCode(v)))
      case Err(e) => Err(e)
    else if f.op == op then Ok(f.payload)
    else Err(Unexpected)
  }

  /** What the call makes of that body. */
  ghost function Understood(q: Request, body: Bytes): Outcome {
    match q
    case Create(_) => Created
    case PublishAsync(_, _) => Handed
    case Subscribe(_) => Subscribed
    case ListTopics =>
      (match Parsed(KTopics, body)
       case Ok(v) => if v.Topics? then Listed(v.names) else Failed(Unexpected)
       case Err(e) => Failed(e))
    case PublishOne(_, _) =>
      (match Parsed(KOffset, body)
       case Ok(v) => if v.Offset? then Published(v.offset) else Failed(Unexpected)
       case Err(e) => Failed(e))
    case PublishMany(_, ms) =>
      (match Parsed(KAck, body)
       case Ok(v) => if v.Ack? && v.count as int == |ms| then Published(v.base) else Failed(Mismatch)
       case Err(e) => Failed(e))
  }

  /** What a call makes of the frame it reads as its answer. */
  ghost function Answer(q: Request, f: Frame): Outcome {
    match ResponseBody(FrameOf(q).op, f)
    case Ok(body) => Understood(q, body)
    case Err(e) => Failed(e)
  }

  function FailureCode(v: Body): uint16 {
    if v.Failure? then v.code else 0
  }

  /** The payloads stand in the topic's log from `base` on. */
  ghost predicate Holds(b: Broker, topic: Bytes, base: int, payloads: seq<Bytes>) {
    topic in b.logs && 0 <= base && base + |payloads| <= |b.logs[topic]|
    && forall i :: 0 <= i < |payloads| ==> b.logs[topic][base + i].payload == payloads[i]
  }

  /** An outcome that tells the truth about the request and the broker; a failure must be one the server reported. */
  ghost predicate True(b: Broker, q: Request, o: Outcome) {
    match o
    case Pending => false
    case Created => q.Create? && q.name in b.logs
    case Handed => q.PublishAsync?
    case Published(base) => (q.PublishOne? || q.PublishMany?) && Holds(b, q.topic, base as int, PayloadsOf(q))
    case Listed(names) => q.ListTopics? && forall n :: n in names ==> n in b.logs
    case Subscribed => q.Subscribe? && q.topic in b.logs
    case Failed(e) => e.Remote?
  }

  /** A published range begins where the log ended before. */
  predicate AtEnd(b: Broker, q: Request, o: Outcome) {
    o.Published? ==> (q.PublishOne? || q.PublishMany?) && q.topic in b.logs && o.base as int == |b.logs[q.topic]|
  }

  /** A listing misses none of these topics. */
  predicate Complete(known: set<Bytes>, o: Outcome) {
    o.Listed? ==> forall n :: n in known ==> n in o.names
  }

  lemma TrueLater(b: Broker, b': Broker, q: Request, o: Outcome)
    requires True(b, q, o) && Grown(b, b')
    ensures True(b', q, o)
  {
  }

  // ---- pushed messages ----

  /** What Subscription.Read makes of the frame it has read. */
  ghost function Carried(f: Frame): Result<Msg> {
    if f.op == OP_MESSAGE then
      match Parsed(KMessage, f.payload)
      case Ok(v) => if v.Message? then Ok(Msg(v.offset, v.msg)) else Err(Unexpected)
      case Err(e) => Err(e)
    else if f.op == OP_ERROR then
      match Parsed(KError, f.payload)
      case Ok(v) => Err(Remote(FailureCode(v)))
      case Err(e) => Err(e)
    else Err(Unexpected)
  }

  /** A pushed frame is read back as the message it carries. */
  lemma PushRead(m: Msg)
    requires |m.payload| <= MAX_MESSAGE
    ensures Sendable(PushFrame(m)) && Carried(PushFrame(m)) == Ok(m)
  {
    CastsLossless(Message(m.offset, m.payload));
  }

  // ---- one request from end to end ----

  /** Why the broker turns down a request that has passed the client's checks, if it does. */
  ghost function Objection(c: Config, b: Broker, q: Request): Option<Error> {
    if b.closed then Some(Closed)
    else
      match q
      case Create(name) =>
        if name in b.logs then Some(TopicExists)
        else if c.maxTopics > 0 && |b.logs| >= c.maxTopics then Some(TooManyTopics)
        else None
      case ListTopics => if |Encode(Topics(c.order(b.logs.Keys)))| > MAX_PAYLOAD then Some(TooLarge) else None
      case _ => if q.topic in b.logs then None else Some(TopicNotFound)
  }

  /** The call as it would be without a network: the broker afterwards and what the caller is told. */
  ghost function Effect(c: Config, b: Broker, q: Request): (Broker, Outcome)
    requires Room(b, FrameOf(q))
  {
    match Objection(c, b, q)
    case Some(e) => (b, if q.PublishAsync? then Handed else Failed(Remote(ErrorCode(e))))
    case None =>
      match q
      case Create(name) => (b.(logs := b.logs[name := []]), Created)
      case ListTopics => (b, Listed(c.order(b.logs.Keys)))
      case Subscribe(_) => (b, Subscribed)
      case PublishAsync(_, _) => (Stored(b, q), Handed)
      case _ => (Stored(b, q), Published(|b.logs[q.topic]| as int64))
  }

  /** The payloads of the request stand at the end of its topic's log. */
  function Stored(b: Broker, q: Request): Broker
    requires Room(b, FrameOf(q)) && (q.PublishOne? || q.PublishMany? || q.PublishAsync?) && q.topic in b.logs
  {
    RoomOf(b, q);
    b.(logs := b.logs[q.topic := Appended(b.logs[q.topic], PayloadsOf(q))])
  }

  lemma RoomOf(b: Broker, q: Request)
    requires Room(b, FrameOf(q))
    ensures forall t :: t in b.logs ==> |b.logs[t]| + |PayloadsOf(q)| <= MAX_INT64
  {
    if q.PublishMany? {
      BlobsNotShorter(q.payloads);
    }
    assert |PayloadsOf(q)| <= |FrameOf(q).payload|;
  }

  /**
   A request that the client lets through, as a frame to the server, and the frame it answers,
   come to the call itself: same broker afterwards, same outcome, same error.  Only the text of
   an error can keep an answer from being sent.
   */
  lemma ServedAs(c: Config, b: Broker, q: Request)
    requires Room(b, FrameOf(q)) && Refusal(q, false, false) == None
    ensures var (h, e) := (Handle(c, b, FrameOf(q)), Effect(c, b, q));
            h.b == e.0 && (h.reply == None <==> q.PublishAsync?)
            && (h.stream.Some? <==> e.1 == Subscribed) && (h.stream.Some? ==> q.Subscribe? && h.stream == Some(q.topic))
            && (h.reply.Some? && !e.1.Failed? ==> Sendable(h.reply.value))
            && (h.reply.Some? && Sendable(h.reply.value) ==> Answer(q, h.reply.value) == e.1)
  {
    hide NameError, Answer;
    if PayloadsOf(q) != [] {
      ServedPublish(c, b, q);
    } else if Objection(c, b, q).Some? {
      if Sendable(ErrorFrame(c, Objection(c, b, q).value, FrameOf(q).payload)) {
        ErrorRead(c, q, Objection(c, b, q).value, FrameOf(q).payload);
      }
    } else {
      ServedPlain(c, b, q);
    }
  }

  /** The requests that carry no payload, when nothing stands against them. */
  lemma ServedPlain(c: Config, b: Broker, q: Request)
    requires Objection(c, b, q) == None && (q.Create? || q.ListTopics? || q.Subscribe?)
    ensures var body := if q.ListTopics? then Encode(Topics(c.order(b.logs.Keys))) else [];
            |body| <= MAX_PAYLOAD
            && Answer(q, Frame(FrameOf(q).op, body)) == if q.ListTopics? then Listed(c.order(b.logs.Keys))
                                                        else if q.Create? then Created else Subscribed
  {
    if q.ListTopics? {
      CastsLossless(Topics(c.order(b.logs.Keys)));
    }
  }

  lemma ServedPublish(c: Config, b: Broker, q: Request)
    requires Room(b, FrameOf(q)) && Refusal(q, false, false) == None && PayloadsOf(q) != []
    ensures var (h, e) := (HandlePublish(c, b, FrameOf(q)), Effect(c, b, q));
            h.b == e.0 && (h.reply == None <==> q.PublishAsync?) && h.stream == None
            && (h.reply.Some? && !e.1.Failed? ==> Sendable(h.reply.value))
            && (h.reply.Some? && Sendable(h.reply.value) ==> Answer(q, h.reply.value) == e.1)
  {
    hide NameError, Answer, Appended, Room;
    var f := FrameOf(q);
    var v := if q.PublishMany? then Batch(q.topic, q.payloads) else Body.Publish(q.topic, q.payload);
    CastsLossless(v);
    ParsedKind(PublishKind(f.op), f.payload);
    RoomFor(b, f, v);
    RoomOf(b, q);
    assert Batched(v) == PayloadsOf(q);
    if Objection(c, b, q).Some? {
      if Sendable(ErrorFrame(c, Objection(c, b, q).value, f.payload)) {
        ErrorRead(c, q, Objection(c, b, q).value, f.payload);
      }
    } else if !q.PublishAsync? {
      AckRead(q, |b.logs[q.topic]| as int64);
    }
  }

  /** An error frame within the limit is read back as that error's code, by a call and by a subscriber. */
  lemma ErrorRead(c: Config, q: Request, e: Error, about: Bytes)
    requires Sendable(ErrorFrame(c, e, about))
    ensures Answer(q, ErrorFrame(c, e, about)) == Failed(Remote(ErrorCode(e)))
    ensures Carried(ErrorFrame(c, e, about)) == Err(Remote(ErrorCode(e)))
  {
    CastsLossless(Failure(ErrorCode(e), c.text(e, about)));
  }

  /** Offset and acknowledgement are within the limit and come back as they were sent. */
  lemma AckRead(q: Request, base: int64)
    requires (q.PublishOne? || q.PublishMany?) && Sendable(FrameOf(q))
    ensures var body := if q.PublishOne? then Encode(Offset(base)) else Encode(Ack(base, U32(|PayloadsOf(q)|)));
            |body| <= MAX_PAYLOAD && Answer(q, Frame(FrameOf(q).op, body)) == Published(base)
  {
    if q.PublishOne? {
      CastsLossless(Offset(base));
    } else {
      CastsLossless(Batch(q.topic, q.payloads));
      CastsLossless(Ack(base, U32(|q.payloads|)));
    }
  }

  /** A publish that nothing stands against is stored: all of it, behind the topic's log, and no other log changes. */
  lemma PublishIsStored(c: Config, b: Broker, q: Request)
    requires Room(b, FrameOf(q)) && Refusal(q, false, false) == None && (q.PublishOne? || q.PublishMany? || q.PublishAsync?)
    requires !b.closed && q.topic in b.logs
    ensures var b' := Handle(c, b, FrameOf(q)).b;
            b'.logs.Keys == b.logs.Keys && b.logs[q.topic] <= b'.logs[q.topic] && !b'.closed
            && Payloads(b'.logs[q.topic]) == Payloads(b.logs[q.topic]) + PayloadsOf(q)
            && Holds(b', q.topic, |b.logs[q.topic]|, PayloadsOf(q))
            && forall t :: t in b.logs && t != q.topic ==> b'.logs[t] == b.logs[t]
  {
    hide Handle, Refusal, FrameOf, Room, Stored, Answer, PayloadsOf, Holds;
    ServedAs(c, b, q);
    StoredIs(b, q);
  }

  lemma StoredIs(b: Broker, q: Request)
    requires Room(b, FrameOf(q)) && (q.PublishOne? || q.PublishMany? || q.PublishAsync?) && q.topic in b.logs
    ensures var b' := Stored(b, q);
            b'.logs.Keys == b.logs.Keys && b.logs[q.topic] <= b'.logs[q.topic] && b'.closed == b.closed
            && Payloads(b'.logs[q.topic]) == Payloads(b.logs[q.topic]) + PayloadsOf(q)
            && Holds(b', q.topic, |b.logs[q.topic]|, PayloadsOf(q))
            && forall t :: t in b.logs && t != q.topic ==> b'.logs[t] == b.logs[t]
  {
    hide Room, FrameOf, PayloadsOf;
    RoomOf(b, q);
  }

  /** What the server makes of any request to create a topic, told from its bytes. */
  lemma CreateFrame(c: Config, b: Broker, f: Frame)
    requires Room(b, f) && f.op == OP_CREATE_TOPIC
    ensures var (h, name, full) := (Handle(c, b, f), f.payload, c.maxTopics > 0 && |b.logs| >= c.maxTopics);
            if b.closed then h.b == b && Says(f, h.reply, CODE_CLOSED)
            else if |name| == 0 then h.b == b && Says(f, h.reply, CODE_EMPTY_TOPIC_NAME)
            else if |name| > 255 then h.b == b && Says(f, h.reply, CODE_TOPIC_NAME_TOO_LONG)
            else if !Nameable(name) then h.b == b && Says(f, h.reply, CODE_INVALID_TOPIC_NAME)
            else if name in b.logs then h.b == b && Says(f, h.reply, CODE_TOPIC_EXISTS)
            else if full then h.b == b && Says(f, h.reply, CODE_TOO_MANY_TOPICS)
            else h.b == b.(logs := b.logs[name := []]) && h.reply == Some(Frame(OP_CREATE_TOPIC, []))
  {
    hide Room, Encode;
    NameableIff(f.payload);
    SaysErrors(c, f);
  }

  /** An error answer says its code. */
  lemma SaysErrors(c: Config, f: Frame)
    requires f.op != OP_ERROR
    ensures forall e :: Says(f, Some(ErrorFrame(c, e, f.payload)), ErrorCode(e))
  {
    forall e | Sendable(ErrorFrame(c, e, f.payload))
      ensures ResponseBody(f.op, ErrorFrame(c, e, f.payload)) == Err(Remote(ErrorCode(e)))
    {
      CastsLossless(Failure(ErrorCode(e), c.text(e, f.payload)));
    }
  }

  /** A frame with an opcode that is no request is passed over. */
  lemma NoRequest(c: Config, b: Broker, f: Frame)
    requires Room(b, f) && f.op !in {1, 2, 3, 6, 7, 8}
    ensures Handle(c, b, f) == Handled(b, None, None)
  {
  }

  /** What the server makes of any publishing frame from anybody, told from its bytes. */
  lemma PublishFrame(c: Config, b: Broker, f: Frame, v: Body)
    requires Room(b, f) && f.op in {OP_PUBLISH, OP_PUBLISH_BATCH, OP_PUBLISH_NO_ACK}
    ensures var h := Handle(c, b, f);
            (h.reply == None <==> f.op == OP_PUBLISH_NO_ACK)
            && (!(exists u :: Reads(PublishKind(f.op), f.payload, u)) ==> h.b == b && Says(f, h.reply, CODE_UNKNOWN))
            && (Reads(PublishKind(f.op), f.payload, v) ==>
                  (TooLong(Batched(v)) ==> h.b == b && Says(f, h.reply, CODE_TOO_LARGE))
                  && (!TooLong(Batched(v)) && b.closed ==> h.b == b && Says(f, h.reply, CODE_CLOSED))
                  && (!TooLong(Batched(v)) && !b.closed && v.topic !in b.logs ==>
                        h.b == b && Says(f, h.reply, CODE_TOPIC_NOT_FOUND))
                  && (!TooLong(Batched(v)) && !b.closed && v.topic in b.logs ==>
                        v.topic in h.b.logs && Payloads(h.b.logs[v.topic]) == Payloads(b.logs[v.topic]) + Batched(v)))
  {
    hide Appended, Encode, Room;
    ParsedIff(PublishKind(f.op), f.payload, v);
    if Reads(PublishKind(f.op), f.payload, v) {
      RoomFor(b, f, v);
    }
    SaysErrors(c, f);
  }

  /** The answer to a frame, if it is answered and the answer can be sent, reports this code. */
  ghost predicate Says(f: Frame, reply: Option<Frame>, code: uint16) {
    reply.Some? && Sendable(reply.value) ==> ResponseBody(f.op, reply.value) == Err(Remote(code))
  }

  // ---- the answer tells the truth ----

  /** What the call itself does is true afterwards. */
  lemma EffectIsTrue(c: Config, b: Broker, q: Request)
    requires Lists(c) && BrokerOk(b) && Room(b, FrameOf(q))
    ensures var (b', o) := Effect(c, b, q);
            (o != Pending && True(b', q, o)) && AtEnd(b, q, o) && Complete(b.logs.Keys, o)
  {
    RoomOf(b, q);
    if q.ListTopics? {
      assert forall n :: n in c.order(b.logs.Keys) ==> n in (set m | m in c.order(b.logs.Keys));
    }
  }

  /**
   A request the client lets through and that is not fire-and-forget is answered, and the
   client reads the answer as something true: the topic exists, the payloads stand where
   the offset says, or the server refused.
   */
  lemma AnswerIsTrue(c: Config, b: Broker, q: Request)
    requires Lists(c) && BrokerOk(b) && Room(b, FrameOf(q)) && Refusal(q, false, false) == None && !q.PublishAsync?
    ensures var h := Handle(c, b, FrameOf(q));
            h.reply.Some? && (h.stream.Some? ==> q.Subscribe? && h.stream == Some(q.topic) && q.topic in h.b.logs)
            && (Sendable(h.reply.value) ==>
                  var o := Answer(q, h.reply.value);
                  True(h.b, q, o) && AtEnd(b, q, o) && Complete(b.logs.Keys, o) && (h.stream.Some? <==> o == Subscribed))
  {
    hide Handle, Answer, Refusal, FrameOf, Room, BrokerOk;
    ServedAs(c, b, q);
    EffectIsTrue(c, b, q);
  }

  // ---- which requests pass, and which answers ----

  function TotalLength(xs: seq<Bytes>): nat {
    if xs == [] then 0 else TotalLength(xs[..|xs| - 1]) + |xs[|xs| - 1]|
  }

  lemma {:induction false} BlobsLength(xs: seq<Bytes>)
    ensures |Blobs(xs)| == 4 * |xs| + TotalLength(xs)
  {
    if xs != [] {
      BlobsLength(xs[..|xs| - 1]);
    }
  }

  /** A name as broker.go:54 wants it. */
  predicate Nameable(name: Bytes) {
    1 <= |name| <= 255 && forall i :: 0 <= i < |name| ==> name[i] >= 32 && name[i] != 127
  }

  lemma NameableIff(name: Bytes)
    ensures Nameable(name) <==> NameError(name) == None
  {
    assert forall i :: 0 <= i < |name| ==> (Control(name[i]) <==> name[i] < 32 || name[i] == 127);
  }

  /**
   An open client that is not streaming lets through exactly the requests with a valid name,
   payloads of at most 16777204 bytes, at least one of them in a batch, and a body of at most
   16777216.
   */
  lemma LetThroughIff(q: Request)
    ensures Refusal(q, false, false) == None <==>
            match q
            case Create(name) => Nameable(name)
            case ListTopics => true
            case Subscribe(t) => Nameable(t)
            case PublishOne(t, m) => Nameable(t) && |m| <= 16777204 && 8 + |t| + |m| <= 16777216
            case PublishAsync(t, m) => Nameable(t) && |m| <= 16777204 && 8 + |t| + |m| <= 16777216
            case PublishMany(t, ms) =>
              Nameable(t) && |ms| >= 1 && (forall i :: 0 <= i < |ms| ==> |ms[i]| <= 16777204)
              && 8 + |t| + 4 * |ms| + TotalLength(ms) <= 16777216
  {
    hide NameError;
    if !q.ListTopics? {
      NameableIff(if q.Create? then q.name else q.topic);
    }
    if q.PublishMany? {
      BlobsLength(q.payloads);
    } else if q.PublishOne? || q.PublishAsync? {
      assert PayloadsOf(q)[0] == q.payload;
    }
  }

  /** Why a client refuses a request, one error at a time. */
  lemma RefusedBecause(q: Request, closed: bool, streaming: bool)
    ensures Refusal(q, closed, streaming) == Some(Closed) <==> closed
    ensures Refusal(q, closed, streaming) == Some(EmptyBatch) <==> !closed && q.PublishMany? && q.payloads == []
    ensures Refusal(q, closed, streaming) == Some(Error.Streaming) <==>
            !closed && streaming && (q.PublishAsync? || q.Subscribe? || LocallyFine(q))
    ensures Refusal(q, closed, streaming) == Some(TooLarge) <==>
            !closed && !(streaming && (q.PublishAsync? || q.Subscribe?)) && !(q.PublishMany? && q.payloads == [])
            && Named(q) && (TooLong(PayloadsOf(q)) || (!streaming && |FrameOf(q).payload| > 16777216))
    ensures var e := Refusal(q, closed, streaming);
            e == None || e.value in {Closed, EmptyBatch, Error.Streaming, TooLarge}
            || (!Named(q) && e == NameError(if q.Create? then q.name else q.topic))
  {
    hide NameError;
    if !q.ListTopics? {
      NameableIff(if q.Create? then q.name else q.topic);
    }
  }

  /** The topic name, if the request has one, is valid. */
  ghost predicate Named(q: Request) {
    q.ListTopics? || Nameable(if q.Create? then q.name else q.topic)
  }

  /** What the calls that ask check before they look whether the client is streaming. */
  ghost predicate LocallyFine(q: Request) {
    Named(q) && !(q.PublishMany? && q.payloads == [])
    && forall i :: 0 <= i < |PayloadsOf(q)| ==> |PayloadsOf(q)[i]| <= 16777204
  }

  /**
   What a call makes of any frame whatever, told from its bytes: an error frame is the
   server's code, another opcode than the request's is refused, and the value must be there;
   the acknowledgement of a batch must count what was sent.
   */
  lemma AnswerIff(q: Request, f: Frame, base: int64, names: seq<Bytes>, code: uint16)
    requires !q.PublishAsync?
    ensures Answer(q, f) == Failed(Remote(code)) <==> f.op == OP_ERROR && exists t :: Reads(KError, f.payload, Failure(code, t))
    ensures Answer(q, f) == Created <==> q.Create? && f.op == OP_CREATE_TOPIC
    ensures Answer(q, f) == Subscribed <==> q.Subscribe? && f.op == OP_SUBSCRIBE
    ensures Answer(q, f) == Listed(names) <==>
            q.ListTopics? && f.op == OP_LIST_TOPICS && Reads(KTopics, f.payload, Topics(names))
    ensures Answer(q, f) == Published(base) <==>
            (q.PublishOne? && f.op == OP_PUBLISH && Reads(KOffset, f.payload, Offset(base)))
            || (q.PublishMany? && f.op == OP_PUBLISH_BATCH && |q.payloads| < 0x1_0000_0000
                && Reads(KAck, f.payload, Ack(base, |q.payloads| as uint32)))
    ensures q.PublishMany? && f.op == OP_PUBLISH_BATCH && Answer(q, f) == Failed(Mismatch) ==>
              exists a, n :: n as int != |q.payloads| && Reads(KAck, f.payload, Ack(a, n))
    ensures Answer(q, f).Pending? == Answer(q, f).Handed? == false
  {
    AnswerErrorIff(q, f, code);
    if f.op == FrameOf(q).op {
      match q
      case ListTopics =>
        ParsedIff(KTopics, f.payload, Topics(names));
      case PublishOne(_, _) =>
        ParsedIff(KOffset, f.payload, Offset(base));
      case PublishMany(_, _) =>
        AckIff(q, f, base);
      case _ =>
    }
  }

  lemma AnswerErrorIff(q: Request, f: Frame, code: uint16)
    ensures Answer(q, f) == Failed(Remote(code)) <==> f.op == OP_ERROR && exists t :: Reads(KError, f.payload, Failure(code, t))
  {
    if f.op == OP_ERROR && Parsed(KError, f.payload).Ok? {
      var v := Parsed(KError, f.payload).value;
      ParsedKind(KError, f.payload);
      assert v == Failure(v.code, v.text);
      forall t | Reads(KError, f.payload, Failure(code, t)) ensures v.code == code {
        PrefixFree(KError, f.payload, v, Failure(code, t));
      }
    }
  }

  lemma AckIff(q: Request, f: Frame, base: int64)
    requires q.PublishMany?
    ensures Understood(q, f.payload) == Published(base) <==>
            |q.payloads| < 0x1_0000_0000 && Reads(KAck, f.payload, Ack(base, |q.payloads| as uint32))
    ensures Understood(q, f.payload) == Failed(Mismatch) ==>
              exists a, n :: n as int != |q.payloads| && Reads(KAck, f.payload, Ack(a, n))
  {
    if |q.payloads| < 0x1_0000_0000 {
      ParsedIff(KAck, f.payload, Ack(base, |q.payloads| as uint32));
    }
    if Parsed(KAck, f.payload).Ok? {
      ParsedKind(KAck, f.payload);
      var v := Parsed(KAck, f.payload).value;
      assert v == Ack(v.base, v.count) && Reads(KAck, f.payload, Ack(v.base, v.count));
    }
  }
}
