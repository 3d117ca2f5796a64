/**
 One client on one connection to the server, as a step system: the client's calls
 (network/client.go), handleConn and stream (network/server.go:189-352), and between
 them two byte queues, each of which may be cut anywhere when the connection breaks.
 Other connections may send the server any frame at any time, and the broker may be
 closed.  Where `timeouts` allows it, a call may give up waiting and the client goes on.
 */
module Sessions {
  import opened Words
  import opened Codec
  import opened Frames
  import opened Store
  import opened Requests
  import opened Writers
  import HeaderPool

  /** A frame under way, and the call it belongs to. */
  datatype Tagged = Tagged(f: Frame, id: nat)

  /** A call, what came of it, and which topics there were when it was made. */
  datatype Call = Call(q: Request, outcome: Outcome, known: set<Bytes>)

  /** Where handleConn is: reading requests, pushing `topic` from cursor `next`, or returned. */
  datatype ServerPhase = Answering | Pushing(topic: Bytes, next: nat) | Ended

  /** A request of this client that the server has handled, and the broker it found. */
  datatype Served = Served(id: nat, b: Broker)

  /** What the owner of the client's mutex is doing; after an abandoned call nothing more is read. */
  datatype ClientPhase = Ready | Awaiting(id: nat) | Streaming(id: nat) | Over

  /**
   `up` and `down` are the bytes under way; `upq` and `downq` the whole frames among them,
   for the proof.  `calls` are all calls ever made, `got` the messages read off the stream,
   `served` the requests handled so far.
   */
  datatype World = World(b: Broker, server: ServerPhase, client: ClientPhase, up: Bytes, down: Bytes,
                         upq: seq<Tagged>, downq: seq<Tagged>, calls: seq<Call>, broken: bool, closed: bool, got: seq<Msg>,
                         served: seq<Served>)

  datatype Action =
    | Invoke(q: Request)
    | InvokeBroken(q: Request, n: nat)
    | CloseClient
    | Abandon
    | TimeOut
    | Receive
    | ReadPush
    | Serve
    | Push
    | HangUp(n: nat)
    | Foreign(f: Frame)
    | CloseBroker

  const INIT := World(Broker(map[], false), Answering, Ready, [], [], [], [], [], false, false, [], [])

  // ---- queues of frames ----

  function Enc(t: Tagged): (e: Bytes)
    ensures |e| >= HEADER_LEN
  {
    EncodeFrame(t.f)
  }

  function TWire(q: seq<Tagged>): Bytes {
    Concat(Enc, q)
  }

  /** `s` is the frames `q` and then at most a torn piece of another one. */
  ghost predicate Carries(s: Bytes, q: seq<Tagged>) {
    (forall i :: 0 <= i < |q| ==> Sendable(q[i].f))
    && TWire(q) <= s && NextFrame(s[|TWire(q)|..]) == (Err(Truncated), [])
  }

  lemma CarriesNothing()
    ensures Carries([], [])
  {
  }

  /** The reader of a queue gets its first frame, or finds it truncated. */
  lemma Head(s: Bytes, q: seq<Tagged>)
    requires Carries(s, q)
    ensures q == [] ==> NextFrame(s) == (Err(Truncated), [])
    ensures q != [] ==> NextFrame(s).0 == Ok(q[0].f) && Carries(NextFrame(s).1, q[1..])
                        && (s == TWire(q) ==> NextFrame(s).1 == TWire(q[1..]))
  {
    if q == [] {
      assert s[|TWire(q)|..] == s;
    } else {
      var e, w := Enc(q[0]), TWire(q[1..]);
      PrefixSplit(TWire(q), e, w);
      var rest := s[|e|..];
      HeadSplit(s, e, w);
      NextFrameOn(q[0].f, rest);
    }
  }

  lemma HeadSplit(s: Bytes, e: Bytes, w: Bytes)
    requires e + w <= s
    ensures s == e + s[|e|..] && w <= s[|e|..] && s[|e|..][|w|..] == s[|e + w|..]
    ensures s == e + w ==> s[|e|..] == w
  {
    assert s[..|e + w|] == e + w;
    assert s[..|e|] == e;
    assert s[|e|..][..|w|] == w;
  }

  lemma Enqueue(s: Bytes, q: seq<Tagged>, t: Tagged)
    requires Carries(s, q) && s == TWire(q) && Sendable(t.f)
    ensures Carries(s + Enc(t), q + [t]) && s + Enc(t) == TWire(q + [t])
  {
    ConcatAppend(Enc, q, [t]);
    ConcatOne(Enc, t);
    assert (s + Enc(t))[|TWire(q + [t])|..] == [];
  }

  /** A frame torn off while it is written. */
  lemma EnqueueTorn(s: Bytes, q: seq<Tagged>, f: Frame, n: nat)
    requires Carries(s, q) && s == TWire(q) && Sendable(f) && n < |EncodeFrame(f)|
    ensures Carries(s + EncodeFrame(f)[..n], q)
  {
    var piece := EncodeFrame(f)[..n];
    assert (s + piece)[|TWire(q)|..] == piece;
    NextFrameCut(f, piece);
  }

  /** How many frames survive when only the first `n` bytes do. */
  function Survivors(q: seq<Tagged>, n: nat): (k: nat)
    ensures k <= |q|
  {
    if q == [] || n < |Enc(q[0])| then 0 else 1 + Survivors(q[1..], n - |Enc(q[0])|)
  }

  lemma {:induction false} Cut(q: seq<Tagged>, n: nat)
    requires (forall i :: 0 <= i < |q| ==> Sendable(q[i].f)) && n <= |TWire(q)|
    ensures Carries(TWire(q)[..n], q[..Survivors(q, n)])
  {
    hide Carries, NextFrame, Sendable, EncodeFrame;
    var s := TWire(q)[..n];
    if q == [] {
      CarriesNothing();
      assert s == [] && q[..Survivors(q, n)] == [];
    } else {
      var e, w := Enc(q[0]), TWire(q[1..]);
      PrefixSplit(s, e, w);
      if n < |e| {
        CutFirst(q[0].f, s);
        assert q[..0] == [];
      } else {
        Cut(q[1..], n - |e|);
        assert s[|e|..] == w[..n - |e|];
        CutRest(q, s, Survivors(q[1..], n - |e|));
      }
    }
  }

  lemma CutFirst(f: Frame, s: Bytes)
    requires Sendable(f) && s < EncodeFrame(f)
    ensures Carries(s, [])
  {
    NextFrameCut(f, s);
    assert s[|TWire([])|..] == s;
  }

  lemma CutRest(q: seq<Tagged>, s: Bytes, k: nat)
    requires k < |q| && Sendable(q[0].f) && |s| >= |Enc(q[0])| && s == Enc(q[0]) + s[|Enc(q[0])|..]
    requires Carries(s[|Enc(q[0])|..], q[1..][..k])
    ensures Carries(s, q[..k + 1])
  {
    hide NextFrame, Enc;
    ConcatTake(Enc, q, k);
    CutJoin(s, Enc(q[0]), TWire(q[1..][..k]));
    var p := q[..k + 1];
    forall i | 0 <= i < |p| ensures Sendable(p[i].f) {
      assert i > 0 ==> p[i] == q[1..][..k][i - 1];
    }
  }

  lemma CutJoin(s: Bytes, e: Bytes, w: Bytes)
    requires |s| >= |e| && s == e + s[|e|..] && w <= s[|e|..]
    ensures e + w <= s && s[|e + w|..] == s[|e|..][|w|..]
  {
    PrefixJoin(s, e, w);
  }

  function TagAll(ms: seq<Msg>, id: nat): (q: seq<Tagged>)
    ensures |q| == |ms| && forall i :: 0 <= i < |ms| ==> q[i] == Tagged(PushFrame(ms[i]), id)
  {
    seq(|ms|, i requires 0 <= i < |ms| => Tagged(PushFrame(ms[i]), id))
  }

  lemma {:induction false} TagAllBytes(ms: seq<Msg>, id: nat)
    ensures TWire(TagAll(ms, id)) == HeaderPool.PushAll(ms)
  {
    if ms != [] {
      TagAllBytes(ms[1..], id);
      assert TagAll(ms, id)[1..] == TagAll(ms[1..], id);
    }
  }

  lemma EnqueueAll(s: Bytes, q: seq<Tagged>, more: seq<Tagged>)
    requires Carries(s, q) && s == TWire(q) && forall i :: 0 <= i < |more| ==> Sendable(more[i].f)
    ensures Carries(s + TWire(more), q + more) && s + TWire(more) == TWire(q + more)
  {
    ConcatAppend(Enc, q, more);
    assert (s + TWire(more))[|TWire(q + more)|..] == [];
  }

  // ---- steps ----

  function Tail(q: seq<Tagged>): seq<Tagged> {
    if q == [] then [] else q[1..]
  }

  predicate IsStreaming(w: World) {
    w.client.Streaming?
  }

  /** A read of the client comes back: a frame is there, or the connection has ended. */
  ghost predicate CanRead(w: World) {
    NextFrame(w.down).0 != Err(Truncated) || w.server == Ended
  }

  ghost predicate Enabled(c: Config, w: World, a: Action) {
    match a
    case Invoke(_) => !w.client.Awaiting?
    case InvokeBroken(q, n) =>
      !w.client.Awaiting? && Refusal(q, w.closed, IsStreaming(w)) == None && n < |EncodeFrame(FrameOf(q))|
    case CloseClient => true
    case Abandon => w.client.Awaiting? && w.client.id < |w.calls| && w.closed
    case TimeOut => c.timeouts && w.client.Awaiting? && w.client.id < |w.calls|
    case Receive => w.client.Awaiting? && w.client.id < |w.calls| && CanRead(w)
    case ReadPush => w.client.Streaming? && CanRead(w)
    case Serve => w.server == Answering && NextFrame(w.up).0.Ok? && Room(w.b, NextFrame(w.up).0.value)
    case Push =>
      w.server.Pushing? && w.server.topic in w.b.logs
      && Window(w.b.logs[w.server.topic], w.server.next, PUSH_BATCH) != []
    case HangUp(n) => w.server != Ended && n <= |w.down|
    case Foreign(f) => Room(w.b, f)
    case CloseBroker => true
  }

  /** A call returns without having been sent. */
  function Refused(w: World, q: Request, e: Error): World {
    w.(calls := w.calls + [Call(q, Failed(e), w.b.logs.Keys)])
  }

  /** The call has written its request; it waits for the answer unless it is fire-and-forget. */
  function Sent(w: World, q: Request): World {
    w.(up := w.up + EncodeFrame(FrameOf(q)), upq := w.upq + [Tagged(FrameOf(q), |w.calls|)],
       calls := w.calls + [Call(q, if q.PublishAsync? then Handed else Pending, w.b.logs.Keys)],
       client := if q.PublishAsync? then w.client else Awaiting(|w.calls|))
  }

  function Finish(w: World, o: Outcome): World
    requires w.client.Awaiting? && w.client.id < |w.calls|
  {
    w.(calls := w.calls[w.client.id := w.calls[w.client.id].(outcome := o)],
       client := if o == Subscribed then ClientPhase.Streaming(w.client.id) else Ready)
  }

  /** The server writes a frame; one too large to send ends the connection instead. */
  function Reply(w: World, f: Frame, id: nat): World {
    if Sendable(f) then w.(down := w.down + EncodeFrame(f), downq := w.downq + [Tagged(f, id)])
    else w.(server := Ended)
  }

  ghost function ServeOne(c: Config, w: World): World
    requires Enabled(c, w, Serve)
  {
    var (r, rest) := NextFrame(w.up);
    var h := Handle(c, w.b, r.value);
    var id := if w.upq == [] then 0 else w.upq[0].id;
    var w' := w.(b := h.b, up := rest, upq := Tail(w.upq), served := w.served + [Served(id, w.b)]);
    if h.reply == None then w'
    else
      var v := Reply(w', h.reply.value, id);
      if v.server != Ended && h.stream.Some? then v.(server := Pushing(h.stream.value, 0)) else v
  }

  function PushSome(c: Config, w: World): World
    requires w.server.Pushing? && w.server.topic in w.b.logs
  {
    var ms := Window(w.b.logs[w.server.topic], w.server.next, PUSH_BATCH);
    var id := if w.client.Awaiting? || w.client.Streaming? then w.client.id else 0;
    if Oversize(ms) then
      Reply(w, ErrorFrame(c, TooLarge, []), id).(server := Ended)
    else
      Extended(w, ms, id)
  }

  /** A batch has been written behind what was under way. */
  function Extended(w: World, ms: seq<Msg>, id: nat): World
    requires w.server.Pushing?
  {
    w.(down := w.down + HeaderPool.PushAll(ms), downq := w.downq + TagAll(ms, id),
       server := Pushing(w.server.topic, w.server.next + |ms|))
  }

  /** Of the frames read off the stream only messages are kept. */
  ghost function Pushed(f: Frame): seq<Msg> {
    if Carried(f).Ok? then [Carried(f).value] else []
  }

  ghost function Apply(c: Config, w: World, a: Action): World
    requires Enabled(c, w, a)
  {
    match a
    case Invoke(q) =>
      (match Refusal(q, w.closed, IsStreaming(w))
       case Some(e) => Refused(w, q, e)
       case None =>
         if w.broken then Refused(w, q, Io) else Sent(w, q))
    case InvokeBroken(q, n) =>
      if w.broken then Refused(w, q, Io)
      else Refused(w, q, Io).(up := w.up + EncodeFrame(FrameOf(q))[..n], broken := true)
    case CloseClient => w.(closed := true)
    case Abandon => w.(calls := w.calls[w.client.id := w.calls[w.client.id].(outcome := Failed(Closed))], client := Over)
    case TimeOut => Finish(w, Failed(Io))
    case Receive =>
      (match NextFrame(w.down)
       case (Ok(f), rest) => Finish(w, Answer(w.calls[w.client.id].q, f)).(down := rest, downq := Tail(w.downq))
       case (Err(e), rest) => Finish(w, Failed(e)).(down := rest))
    case ReadPush =>
      (match NextFrame(w.down)
       case (Ok(f), rest) => w.(down := rest, downq := Tail(w.downq), got := w.got + Pushed(f))
       case (Err(e), rest) => w.(down := rest))
    case Serve => ServeOne(c, w)
    case Push => PushSome(c, w)
    case HangUp(n) => w.(server := Ended, down := w.down[..n], downq := w.downq[..Survivors(w.downq, n)])
    case Foreign(f) => w.(b := Handle(c, w.b, f).b)
    case CloseBroker => w.(b := w.b.(closed := true))
  }

  // ---- the invariant ----

  /** A finished call was told the truth; only the awaited one is unfinished. */
  ghost predicate CallOk(w: World, i: int)
    requires 0 <= i < |w.calls|
  {
    var (q, o) := (w.calls[i].q, w.calls[i].outcome);
    (o == Pending <==> w.client == Awaiting(i)) && (o == Pending || o.Failed? || True(w.b, q, o))
  }

  /** A frame on its way up is the request of its call. */
  ghost predicate SentOk(w: World, t: Tagged) {
    t.id < |w.calls| && t.f == FrameOf(w.calls[t.id].q) && Refusal(w.calls[t.id].q, false, false) == None
  }

  ghost predicate QueuesOk(w: World) {
    Carries(w.up, w.upq) && (!w.broken ==> w.up == TWire(w.upq))
    && Carries(w.down, w.downq) && (w.server != Ended ==> w.down == TWire(w.downq))
    && forall i :: 0 <= i < |w.upq| ==> SentOk(w, w.upq[i])
  }

  /** Only fire-and-forget requests. */
  ghost predicate Asyncs(w: World, q: seq<Tagged>) {
    forall i :: 0 <= i < |q| ==> q[i].id < |w.calls| && w.calls[q[i].id].q.PublishAsync?
  }

  /** The messages of the topic's log from `from` on. */
  ghost predicate Pushes(b: Broker, topic: Bytes, from: nat, q: seq<Tagged>) {
    topic in b.logs && from + |q| <= |b.logs[topic]|
    && forall i :: 0 <= i < |q| ==> q[i].f == PushFrame(b.logs[topic][from + i])
  }

  /** The answer has been sent: it is first in line, true, and followed by pushes only if it acknowledges a subscription. */
  ghost predicate AnsweredOk(w: World, id: nat, q: Request)
    requires w.downq != []
  {
    var o := Answer(q, w.downq[0].f);
    w.downq[0].id == id && True(w.b, q, o)
    && (w.server == Answering ==> o != Subscribed && w.upq == [])
    && (o != Subscribed ==> |w.downq| == 1 && !w.server.Pushing?)
    && (o == Subscribed ==> q.Subscribe? && Pushes(w.b, q.topic, 0, w.downq[1..]))
    && (w.server.Pushing? ==> w.upq == [] && q.Subscribe? && w.server == Pushing(q.topic, |w.downq| - 1))
  }

  /** The answer has not been sent: the request is last in line, behind fire-and-forget ones. */
  ghost predicate UnansweredOk(w: World, id: nat)
    requires w.downq == []
  {
    !w.server.Pushing?
    && (w.server == Answering ==>
          w.upq != [] && w.upq[|w.upq| - 1].id == id && Asyncs(w, w.upq[..|w.upq| - 1]))
  }

  ghost predicate StreamOk(w: World, q: Request) {
    q.Subscribe? && q.topic in w.b.logs && w.got <= w.b.logs[q.topic]
    && Pushes(w.b, q.topic, |w.got|, w.downq) && w.server != Answering
    && (w.server.Pushing? ==> w.upq == [] && w.server == Pushing(q.topic, |w.got| + |w.downq|))
  }

  ghost predicate PhaseOk(w: World) {
    match w.client
    case Ready => w.downq == [] && w.got == [] && !w.server.Pushing? && (w.server == Answering ==> Asyncs(w, w.upq))
    case Awaiting(id) =>
      id < |w.calls| && !w.calls[id].q.PublishAsync? && w.got == []
      && if w.downq == [] then UnansweredOk(w, id) else AnsweredOk(w, id, w.calls[id].q)
    case Streaming(id) => id < |w.calls| && StreamOk(w, w.calls[id].q)
    case Over => w.closed
  }

  ghost predicate Inv(w: World) {
    BrokerOk(w.b) && QueuesOk(w) && PhaseOk(w) && forall i :: 0 <= i < |w.calls| ==> CallOk(w, i)
  }

  // ---- every step keeps it ----

  /** The broker moving on disturbs nothing. */
  lemma GrowKeeps(w: World, b': Broker)
    requires Inv(w) && Grown(w.b, b') && BrokerOk(b')
    ensures Inv(w.(b := b'))
  {
    hide Answer, True, Carries, TWire, BrokerOk, Refusal, PushFrame;
    var w' := w.(b := b');
    forall i | 0 <= i < |w'.calls| ensures CallOk(w', i) {
      assert CallOk(w, i);
      if w.calls[i].outcome != Pending && !w.calls[i].outcome.Failed? {
        TrueLater(w.b, b', w.calls[i].q, w.calls[i].outcome);
      }
    }
    if w.client.Awaiting? && w.downq != [] {
      var q := w.calls[w.client.id].q;
      TrueLater(w.b, b', q, Answer(q, w.downq[0].f));
    }
    forall i | 0 <= i < |w'.upq| ensures SentOk(w', w'.upq[i]) {
      assert SentOk(w, w.upq[i]);
    }
  }

  lemma RefusedKeeps(w: World, q: Request, e: Error)
    requires Inv(w) && !w.client.Awaiting?
    ensures Inv(Refused(w, q, e))
  {
    hide Answer, True, Carries, TWire, BrokerOk, PushFrame, Pushes, Refusal, FrameOf;
    var w' := Refused(w, q, e);
    forall i | 0 <= i < |w'.calls| ensures CallOk(w', i) {
      if i < |w.calls| {
        assert CallOk(w, i);
      }
    }
    forall i | 0 <= i < |w'.upq| ensures SentOk(w', w'.upq[i]) {
      assert SentOk(w, w.upq[i]);
    }
  }

  lemma SentKeeps(w: World, q: Request)
    requires Inv(w) && w.client == Ready && Refusal(q, false, false) == None && !w.broken
    ensures Inv(Sent(w, q))
  {
    hide Answer, Carries, TWire, BrokerOk, PushFrame, Pushes, FrameOf, Refusal;
    var w' := Sent(w, q);
    LetThrough(q);
    Enqueue(w.up, w.upq, Tagged(FrameOf(q), |w.calls|));
    forall i | 0 <= i < |w'.calls| ensures CallOk(w', i) {
      if i < |w.calls| {
        assert CallOk(w, i);
      }
    }
    forall i | 0 <= i < |w'.upq| ensures SentOk(w', w'.upq[i]) {
      if i < |w.upq| {
        assert SentOk(w, w.upq[i]);
      }
    }
    assert w'.upq[..|w'.upq| - 1] == w.upq;
  }

  lemma LetThrough(q: Request)
    requires Refusal(q, false, false) == None
    ensures Sendable(FrameOf(q))
  {
  }

  lemma TornKeeps(w: World, q: Request, n: nat)
    requires Inv(w) && w.client == Ready && Refusal(q, false, false) == None && !w.broken && n < |EncodeFrame(FrameOf(q))|
    ensures Inv(w.(up := w.up + EncodeFrame(FrameOf(q))[..n], broken := true))
  {
    hide Answer, True, Carries, TWire, BrokerOk, PushFrame, Pushes, FrameOf, Refusal;
    LetThrough(q);
    EnqueueTorn(w.up, w.upq, FrameOf(q), n);
    var w' := w.(up := w.up + EncodeFrame(FrameOf(q))[..n], broken := true);
    CallsSame(w, w');
  }

  /** Nothing about the calls has changed. */
  lemma CallsSame(w: World, w': World)
    requires Inv(w) && w'.calls == w.calls && w'.client == w.client && w'.b == w.b
    ensures forall i :: 0 <= i < |w'.calls| ==> CallOk(w', i)
    ensures forall t: Tagged :: SentOk(w, t) ==> SentOk(w', t)
  {
    hide Answer, True, Refusal, FrameOf;
    forall i | 0 <= i < |w'.calls| ensures CallOk(w', i) {
      assert CallOk(w, i);
    }
  }

  lemma InvokeKeeps(c: Config, w: World, a: Action)
    requires Inv(w) && Enabled(c, w, a) && (a.Invoke? || a.InvokeBroken?)
    ensures Inv(Apply(c, w, a))
  {
    hide Inv, Refused, Sent;
    var r := Refusal(a.q, w.closed, IsStreaming(w));
    if r.Some? {
      RefusedKeeps(w, a.q, r.value);
    } else {
      Permitted(w, a.q);
      if w.broken {
        RefusedKeeps(w, a.q, Io);
      } else if a.Invoke? {
        SentKeeps(w, a.q);
      } else {
        TornRefused(w, a.q, a.n);
      }
    }
  }

  lemma TornRefused(w: World, q: Request, n: nat)
    requires Inv(w) && w.client == Ready && Refusal(q, false, false) == None && !w.broken && n < |EncodeFrame(FrameOf(q))|
    ensures Inv(Refused(w, q, Io).(up := w.up + EncodeFrame(FrameOf(q))[..n], broken := true))
  {
    hide Inv;
    TornKeeps(w, q, n);
    RefusedKeeps(w.(up := w.up + EncodeFrame(FrameOf(q))[..n], broken := true), q, Io);
  }

  /** Only a client that is open and not streaming gets a request past its checks. */
  lemma Permitted(w: World, q: Request)
    requires Inv(w) && !w.client.Awaiting? && Refusal(q, w.closed, IsStreaming(w)) == None
    ensures w.client == Ready && Refusal(q, false, false) == None
  {
  }

  /** The server answers a request of this client, which waits for nothing else. */
  lemma ServeKeeps(c: Config, w: World)
    requires Lists(c) && Inv(w) && Enabled(c, w, Serve)
    ensures Inv(ServeOne(c, w))
  {
    hide Answer, True, Carries, TWire, BrokerOk, PushFrame, Refusal, FrameOf, Handle, NextFrame, Grown, Room;
    Head(w.up, w.upq);
    var t := w.upq[0];
    assert SentOk(w, t);
    var q := w.calls[t.id].q;
    HandleKeeps(c, w.b, t.f);
    var h := Handle(c, w.b, t.f);
    GrowKeeps(w, h.b);
    var v := w.(b := h.b, up := NextFrame(w.up).1, upq := w.upq[1..], served := w.served + [Served(t.id, w.b)]);
    Taken(w, h.b);
    if q.PublishAsync? {
      NoAnswer(c, w.b, q);
    } else {
      AnswerIsTrue(c, w.b, q);
      Waited(w);
      AnswerKeeps(v, t.id, h.reply.value, h.stream);
    }
  }

  lemma NoAnswer(c: Config, b: Broker, q: Request)
    requires q.PublishAsync? && Room(b, FrameOf(q))
    ensures Handle(c, b, FrameOf(q)).reply == None
  {
    AnsweredIff(c, b, FrameOf(q));
  }

  /** What holds between taking a request off the queue and answering it. */
  ghost predicate Between(w: World) {
    BrokerOk(w.b) && QueuesOk(w) && (forall i :: 0 <= i < |w.calls| ==> CallOk(w, i)) && w.server == Answering
  }

  lemma Taken(w: World, b': Broker)
    requires Inv(w) && w.server == Answering && w.upq != [] && Inv(w.(b := b'))
    ensures var v := w.(b := b', up := NextFrame(w.up).1, upq := w.upq[1..], served := w.served + [Served(w.upq[0].id, w.b)]);
            Between(v) && (w.calls[w.upq[0].id].q.PublishAsync? ==> Inv(v))
  {
    hide Answer, True, Carries, TWire, BrokerOk, PushFrame, Refusal, FrameOf, NextFrame;
    Head(w.up, w.upq);
    assert SentOk(w, w.upq[0]);
    var w1 := w.(b := b');
    var v := w.(b := b', up := NextFrame(w.up).1, upq := w.upq[1..], served := w.served + [Served(w.upq[0].id, w.b)]);
    CallsSame(w1, v);
    forall i | 0 <= i < |v.upq| ensures SentOk(v, v.upq[i]) {
      assert SentOk(w1, w1.upq[i + 1]);
    }
    assert v.upq != [] ==> v.upq[|v.upq| - 1] == w.upq[|w.upq| - 1];
    assert v.upq != [] ==> v.upq[..|v.upq| - 1] == w.upq[..|w.upq| - 1][1..];
  }

  /** The first request in line that wants an answer is the one the client waits for, and the last, unless it was given up. */
  lemma Waited(w: World)
    requires Inv(w) && w.server == Answering && w.upq != [] && !w.calls[w.upq[0].id].q.PublishAsync?
    ensures w.client == Over || (w.client == Awaiting(w.upq[0].id) && w.upq[1..] == [] && w.downq == [] && w.got == [])
  {
    assert |w.upq| > 1 ==> w.upq[..|w.upq| - 1][0] == w.upq[0];
  }

  lemma AnswerKeeps(w: World, id: nat, r: Frame, stream: Option<Bytes>)
    requires Between(w) && id < |w.calls| && !w.calls[id].q.PublishAsync?
    requires (w.client == Over && w.closed) || (w.client == Awaiting(id) && w.upq == [] && w.downq == [] && w.got == [])
    requires stream.Some? ==>
               w.calls[id].q.Subscribe? && stream == Some(w.calls[id].q.topic) && w.calls[id].q.topic in w.b.logs
    requires Sendable(r) ==>
               True(w.b, w.calls[id].q, Answer(w.calls[id].q, r))
               && (stream.Some? <==> Answer(w.calls[id].q, r) == Subscribed)
    ensures var v := Reply(w, r, id);
            Inv(if v.server != Ended && stream.Some? then v.(server := Pushing(stream.value, 0)) else v)
  {
    hide Answer, True, Carries, TWire, BrokerOk, PushFrame, Refusal, FrameOf;
    if Sendable(r) {
      Enqueue(w.down, w.downq, Tagged(r, id));
    }
    var v0 := Reply(w, r, id);
    var v := if v0.server != Ended && stream.Some? then v0.(server := Pushing(stream.value, 0)) else v0;
    assert v.downq == [Tagged(r, id)] ==> v.downq[1..] == [];
    forall i | 0 <= i < |v.calls| ensures CallOk(v, i) {
      assert CallOk(w, i);
    }
  }

  /** The client reads its answer, or finds the connection ended. */
  lemma ReceiveKeeps(c: Config, w: World)
    requires Inv(w) && Enabled(c, w, Receive)
    ensures Inv(Apply(c, w, Receive))
  {
    hide Answer, True, Carries, TWire, BrokerOk, PushFrame, Refusal, FrameOf, NextFrame;
    Head(w.down, w.downq);
    CarriesNothing();
    var id := w.client.id;
    var q := w.calls[id].q;
    assert CallOk(w, id);
    if w.downq == [] {
      Concluded(w, Failed(Truncated), [], []);
    } else {
      TrueIsDone(w.b, q, Answer(q, w.downq[0].f));
      Concluded(w, Answer(q, w.downq[0].f), NextFrame(w.down).1, w.downq[1..]);
    }
  }

  lemma TrueIsDone(b: Broker, q: Request, o: Outcome)
    requires True(b, q, o)
    ensures o != Pending
  {
  }

  /** The awaited call is finished with a truthful outcome, or because the connection has ended. */
  lemma Concluded(w: World, o: Outcome, down: Bytes, downq: seq<Tagged>)
    requires Inv(w) && w.client.Awaiting? && o != Pending
    requires Carries(down, downq) && (w.server != Ended ==> down == TWire(downq))
    requires downq == if w.downq == [] then [] else w.downq[1..]
    requires if w.downq == [] then o == Failed(Truncated) && w.server == Ended
             else True(w.b, w.calls[w.client.id].q, o) && o == Answer(w.calls[w.client.id].q, w.downq[0].f)
    ensures Inv(Finish(w, o).(down := down, downq := downq))
  {
    hide Answer, True, Carries, TWire, BrokerOk, PushFrame, Refusal, FrameOf;
    var w' := Finish(w, o).(down := down, downq := downq);
    forall i | 0 <= i < |w'.calls| ensures CallOk(w', i) {
      assert CallOk(w, i);
    }
    forall i | 0 <= i < |w'.upq| ensures SentOk(w', w'.upq[i]) {
      assert SentOk(w, w.upq[i]);
    }
  }

  lemma PushedOne(m: Msg)
    requires |m.payload| <= MAX_MESSAGE
    ensures Pushed(PushFrame(m)) == [m]
  {
    PushRead(m);
  }

  lemma ReadPushKeeps(c: Config, w: World)
    requires Inv(w) && Enabled(c, w, ReadPush)
    ensures Inv(Apply(c, w, ReadPush))
  {
    hide Answer, True, Carries, TWire, PushFrame, Refusal, FrameOf, NextFrame, Pushed;
    Head(w.down, w.downq);
    CarriesNothing();
    var w' := Apply(c, w, ReadPush);
    CallsSame(w, w');
    if w.downq != [] {
      var log := w.b.logs[w.calls[w.client.id].q.topic];
      assert w.downq[0].f == PushFrame(log[|w.got|]);
      PushedOne(log[|w.got|]);
      assert w'.got == log[..|w.got| + 1];
    }
  }

  lemma PushesMore(b: Broker, topic: Bytes, from: nat, q: seq<Tagged>, ms: seq<Msg>, id: nat)
    requires Pushes(b, topic, from, q) && from + |q| + |ms| <= |b.logs[topic]|
    requires ms == b.logs[topic][from + |q|..from + |q| + |ms|]
    ensures Pushes(b, topic, from, q + TagAll(ms, id))
  {
  }

  /** The next batch of a log whose messages can all be pushed. */
  lemma NextWindow(b: Broker, topic: Bytes, next: nat)
    requires BrokerOk(b) && topic in b.logs
    ensures var ms := Window(b.logs[topic], next, PUSH_BATCH);
            (ms != [] ==> next + |ms| <= |b.logs[topic]| && ms == b.logs[topic][next..next + |ms|])
            && forall i :: 0 <= i < |ms| ==> |ms[i].payload| <= MAX_MESSAGE && Sendable(PushFrame(ms[i]))
  {
    var ms := Window(b.logs[topic], next, PUSH_BATCH);
    forall i | 0 <= i < |ms| ensures |ms[i].payload| <= MAX_MESSAGE && Sendable(PushFrame(ms[i])) {
      assert ms[i] == b.logs[topic][next + i];
      PushRead(ms[i]);
    }
  }

  /** A batch read from the log goes out as its message frames; none of them is ever too large. */
  lemma PushKeeps(c: Config, w: World)
    requires Inv(w) && Enabled(c, w, Push)
    ensures Inv(PushSome(c, w)) && PushSome(c, w).server.Pushing?
  {
    hide QueuesOk, PhaseOk, CallOk, BrokerOk, Window, Extended;
    NextWindow(w.b, w.server.topic, w.server.next);
    var ms := Window(w.b.logs[w.server.topic], w.server.next, PUSH_BATCH);
    var id := if w.client.Awaiting? || w.client.Streaming? then w.client.id else 0;
    PushQueues(w, ms, id);
    PushPhase(w, ms, id);
    ExtendedSame(w, ms, id);
    CallsSame(w, Extended(w, ms, id));
  }

  lemma ExtendedSame(w: World, ms: seq<Msg>, id: nat)
    requires w.server.Pushing?
    ensures var w' := Extended(w, ms, id);
            w'.b == w.b && w'.calls == w.calls && w'.client == w.client && w'.server.Pushing?
  {
  }

  lemma PushQueues(w: World, ms: seq<Msg>, id: nat)
    requires QueuesOk(w) && w.server.Pushing? && forall i :: 0 <= i < |ms| ==> Sendable(PushFrame(ms[i]))
    ensures QueuesOk(Extended(w, ms, id))
  {
    hide Carries, TWire, PushFrame;
    TagAllBytes(ms, id);
    EnqueueAll(w.down, w.downq, TagAll(ms, id));
    assert forall t: Tagged :: SentOk(w, t) ==> SentOk(Extended(w, ms, id), t);
  }

  lemma PushPhase(w: World, ms: seq<Msg>, id: nat)
    requires PhaseOk(w) && w.server.Pushing? && w.server.topic in w.b.logs
    requires w.server.next + |ms| <= |w.b.logs[w.server.topic]|
    requires ms == w.b.logs[w.server.topic][w.server.next..w.server.next + |ms|]
    ensures PhaseOk(Extended(w, ms, id))
  {
    hide Pushes, True, PushFrame, Answer, TagAll, HeaderPool.PushAll;
    var w' := Extended(w, ms, id);
    if w.client.Awaiting? {
      PushesMore(w.b, w.server.topic, 0, w.downq[1..], ms, id);
      assert w'.downq[1..] == w.downq[1..] + TagAll(ms, id);
    } else if w.client.Streaming? {
      PushesMore(w.b, w.server.topic, |w.got|, w.downq, ms, id);
    }
  }

  /** The connection breaks: whatever was not read yet is cut at any byte. */
  lemma HangUpKeeps(c: Config, w: World, n: nat)
    requires Inv(w) && Enabled(c, w, HangUp(n))
    ensures Inv(Apply(c, w, HangUp(n)))
  {
    hide Answer, True, TWire, PushFrame, Refusal, FrameOf, NextFrame, Pushes, BrokerOk, Asyncs;
    Cut(w.downq, n);
    var w' := Apply(c, w, HangUp(n));
    CallsSame(w, w');
    PushesFewer(w, Survivors(w.downq, n));
  }

  lemma PushesFewer(w: World, k: nat)
    requires k <= |w.downq| && Inv(w)
    ensures w.client.Streaming? ==> Pushes(w.b, w.calls[w.client.id].q.topic, |w.got|, w.downq[..k])
    ensures w.client.Awaiting? && k > 0 ==>
              w.downq[..k][0] == w.downq[0] && w.downq[..k][1..] == w.downq[1..][..k - 1]
    ensures w.client.Awaiting? && k > 0 && Answer(w.calls[w.client.id].q, w.downq[0].f) == Subscribed ==>
              Pushes(w.b, w.calls[w.client.id].q.topic, 0, w.downq[..k][1..])
  {
    hide Answer, True, PushFrame, BrokerOk, QueuesOk, CallOk;
  }

  /** The client closes its connection, or gives up the call it was in when that happened. */
  lemma ClosingKeeps(c: Config, w: World, a: Action)
    requires Inv(w) && Enabled(c, w, a) && (a.CloseClient? || a.Abandon?)
    ensures Inv(Apply(c, w, a))
  {
    hide Answer, True, Carries, TWire, BrokerOk, PushFrame, Refusal, FrameOf;
    var w' := Apply(c, w, a);
    forall i | 0 <= i < |w'.calls| ensures CallOk(w', i) {
      assert CallOk(w, i);
    }
    forall i | 0 <= i < |w'.upq| ensures SentOk(w', w'.upq[i]) {
      assert SentOk(w, w.upq[i]);
    }
  }

  lemma StepKeeps(c: Config, w: World, a: Action)
    requires Lists(c) && !c.timeouts && Inv(w) && Enabled(c, w, a)
    ensures Inv(Apply(c, w, a))
  {
    hide Inv, ServeOne, Handle;
    match a
    case Invoke(_) => InvokeKeeps(c, w, a);
    case InvokeBroken(_, _) => InvokeKeeps(c, w, a);
    case CloseClient => ClosingKeeps(c, w, a);
    case Abandon => ClosingKeeps(c, w, a);
    case Receive => ReceiveKeeps(c, w);
    case ReadPush => ReadPushKeeps(c, w);
    case Serve => ServeKeeps(c, w);
    case Push => PushKeeps(c, w);
    case HangUp(n) => HangUpKeeps(c, w, n);
    case Foreign(f) => ForeignKeeps(c, w, f);
    case CloseBroker => GrowCloses(w);
  }

  lemma ForeignKeeps(c: Config, w: World, f: Frame)
    requires Inv(w) && Room(w.b, f)
    ensures Inv(w.(b := Handle(c, w.b, f).b))
  {
    HandleKeeps(c, w.b, f);
    GrowKeeps(w, Handle(c, w.b, f).b);
  }

  lemma GrowCloses(w: World)
    requires Inv(w)
    ensures Inv(w.(b := w.b.(closed := true)))
  {
    GrowKeeps(w, w.b.(closed := true));
  }

  ghost function Run(c: Config, acts: seq<Action>): Option<World> {
    if acts == [] then Some(INIT)
    else
      match Run(c, acts[..|acts| - 1])
      case None => None
      case Some(w) =>
        var a := acts[|acts| - 1];
        if Enabled(c, w, a) then Some(Apply(c, w, a)) else None
  }

  lemma {:induction false} RunInv(c: Config, acts: seq<Action>)
    requires Lists(c) && !c.timeouts
    ensures Run(c, acts).Some? ==> Inv(Run(c, acts).value)
  {
    if acts == [] {
      CarriesNothing();
    } else if Run(c, acts).Some? {
      RunInv(c, acts[..|acts| - 1]);
      StepKeeps(c, Run(c, acts[..|acts| - 1]).value, acts[|acts| - 1]);
    }
  }

  // ---- ranges and listings ----

  /** The call has been told a range of the topic's log. */
  predicate PublishedOn(c: Call, topic: Bytes) {
    c.outcome.Published? && (c.q.PublishOne? || c.q.PublishMany?) && c.q.topic == topic
  }

  /** The ranges these calls were told on the topic all end by `end`. */
  ghost predicate Upto(calls: seq<Call>, topic: Bytes, end: int) {
    forall i :: 0 <= i < |calls| && PublishedOn(calls[i], topic) ==>
      calls[i].outcome.base as int + |PayloadsOf(calls[i].q)| <= end
  }

  /** Every range begins behind those of the earlier calls on its topic. */
  ghost predicate Increasing(calls: seq<Call>) {
    forall j :: 0 <= j < |calls| ==> Behind(calls, j)
  }

  ghost predicate Behind(calls: seq<Call>, j: int)
    requires 0 <= j < |calls|
  {
    calls[j].outcome.Published? && (calls[j].q.PublishOne? || calls[j].q.PublishMany?) ==>
      Upto(calls[..j], calls[j].q.topic, calls[j].outcome.base as int)
  }

  /** Topics are never lost, and a listing had all there were when it was asked for. */
  ghost predicate Informed(w: World, i: int)
    requires 0 <= i < |w.calls|
  {
    w.calls[i].known <= w.b.logs.Keys && Complete(w.calls[i].known, w.calls[i].outcome)
  }

  /** The same of the answer that has been sent and not been read. */
  ghost predicate NextOk(w: World) {
    w.client.Awaiting? ==>
      w.client.id == |w.calls| - 1 && (w.downq != [] ==> Expected(w, w.calls[w.client.id], w.downq[0].f))
  }

  ghost predicate Expected(w: World, c: Call, f: Frame) {
    var o := Answer(c.q, f);
    Complete(c.known, o)
    && (o.Published? && (c.q.PublishOne? || c.q.PublishMany?) ==> Upto(w.calls, c.q.topic, o.base as int))
  }

  ghost predicate Orderly(w: World) {
    Increasing(w.calls) && NextOk(w) && forall i :: 0 <= i < |w.calls| ==> Informed(w, i)
  }

  /** One more call that has been told nothing yet. */
  lemma OrderSnoc(calls: seq<Call>, c: Call)
    requires Increasing(calls) && !c.outcome.Published?
    ensures Increasing(calls + [c])
  {
    forall j | 0 <= j < |calls + [c]| ensures Behind(calls + [c], j) {
      if j < |calls| {
        assert Behind(calls, j) && (calls + [c])[..j] == calls[..j];
      }
    }
  }

  /** The last call is told its outcome. */
  lemma OrderLast(calls: seq<Call>, c: Call)
    requires Increasing(calls) && calls != []
    requires c.outcome.Published? && (c.q.PublishOne? || c.q.PublishMany?) ==> Upto(calls, c.q.topic, c.outcome.base as int)
    ensures Increasing(calls[|calls| - 1 := c])
  {
    var n, calls' := |calls| - 1, calls[|calls| - 1 := c];
    forall j | 0 <= j < |calls'| ensures Behind(calls', j) {
      assert calls'[..j] == calls[..j];
      if j < n {
        assert Behind(calls, j);
      }
    }
  }

  lemma OrderlyInvoke(c: Config, w: World, a: Action)
    requires Inv(w) && Orderly(w) && Enabled(c, w, a) && (a.Invoke? || a.InvokeBroken?)
    ensures Orderly(Apply(c, w, a))
  {
    hide Carries, TWire, BrokerOk, True, Answer, FrameOf, QueuesOk, CallOk, Increasing, Refusal;
    var w' := Apply(c, w, a);
    OrderSnoc(w.calls, w'.calls[|w.calls|]);
    if Refusal(a.q, w.closed, IsStreaming(w)) == None {
      Permitted(w, a.q);
    }
    forall i | 0 <= i < |w'.calls| ensures Informed(w', i) {
      if i < |w.calls| {
        assert Informed(w, i);
      }
    }
  }

  /** The awaited call ends with this outcome. */
  lemma OrderlyFinish(w: World, o: Outcome, w': World)
    requires Inv(w) && Orderly(w) && w.client.Awaiting? && !w'.client.Awaiting? && w'.b == w.b
    requires w'.calls == w.calls[w.client.id := w.calls[w.client.id].(outcome := o)]
    requires o.Failed? || (w.downq != [] && o == Answer(w.calls[w.client.id].q, w.downq[0].f))
    ensures Orderly(w')
  {
    hide Carries, TWire, BrokerOk, True, Answer, FrameOf, QueuesOk, CallOk, Increasing, Upto;
    OrderLast(w.calls, w'.calls[w.client.id]);
    forall i | 0 <= i < |w'.calls| ensures Informed(w', i) {
      assert Informed(w, i);
    }
  }

  /** Everything told so far lies within the log. */
  lemma WithinLog(w: World, topic: Bytes)
    requires Inv(w) && topic in w.b.logs
    ensures Upto(w.calls, topic, |w.b.logs[topic]|)
  {
    hide Carries, TWire, BrokerOk, Answer, FrameOf, QueuesOk, PhaseOk;
    forall i | 0 <= i < |w.calls| && PublishedOn(w.calls[i], topic)
      ensures w.calls[i].outcome.base as int + |PayloadsOf(w.calls[i].q)| <= |w.b.logs[topic]|
    {
      assert CallOk(w, i);
    }
  }

  /** The broker moves on, or the connection does, and the first answer in line stays what it was. */
  lemma OrderlyRest(w: World, w': World)
    requires Inv(w) && Orderly(w) && Grown(w.b, w'.b) && w'.calls == w.calls && w'.client == w.client
    requires w.client.Awaiting? && w'.downq != [] ==>
               if w.downq != [] then w'.downq[0] == w.downq[0] else Expected(w', w.calls[w.client.id], w'.downq[0].f)
    ensures Orderly(w')
  {
    hide Carries, TWire, BrokerOk, True, Answer, FrameOf, QueuesOk, CallOk, Increasing, Upto;
    forall i | 0 <= i < |w'.calls| ensures Informed(w', i) {
      assert Informed(w, i);
    }
  }

  lemma OrderlyServe(c: Config, w: World)
    requires Lists(c) && Inv(w) && Orderly(w) && Enabled(c, w, Serve)
    ensures Orderly(ServeOne(c, w))
  {
    hide Carries, TWire, BrokerOk, True, Answer, FrameOf, CallOk, Increasing, Upto, Handle, Refusal, NextFrame,
         PushFrame, Orderly, Expected;
    Head(w.up, w.upq);
    var t := w.upq[0];
    assert SentOk(w, t);
    HandleKeeps(c, w.b, t.f);
    var q, w' := w.calls[t.id].q, ServeOne(c, w);
    if q.PublishAsync? {
      NoAnswer(c, w.b, q);
    } else {
      AnswerIsTrue(c, w.b, q);
      Waited(w);
      if w.client.Awaiting? && w'.downq != [] {
        OrderlyAnswer(w, t.id, Handle(c, w.b, t.f).reply.value);
        assert w'.downq[0].f == Handle(c, w.b, t.f).reply.value;
        SameExpected(w, w', w.calls[t.id], w'.downq[0].f);
      }
    }
    OrderlyRest(w, w');
  }

  lemma SameExpected(w: World, w': World, c: Call, f: Frame)
    requires Expected(w, c, f) && w'.calls == w.calls
    ensures Expected(w', c, f)
  {
  }

  lemma OrderlyAnswer(w: World, id: nat, f: Frame)
    requires Inv(w) && Orderly(w) && id < |w.calls|
    requires var o := Answer(w.calls[id].q, f); AtEnd(w.b, w.calls[id].q, o) && Complete(w.b.logs.Keys, o)
    ensures Expected(w, w.calls[id], f)
  {
    hide Inv, Answer, Upto, Increasing, NextOk;
    assert Informed(w, id);
    if Answer(w.calls[id].q, f).Published? {
      WithinLog(w, w.calls[id].q.topic);
    }
  }

  /** Steps after which the calls are the same, and the first answer in line too. */
  lemma OrderlyQuiet(c: Config, w: World, a: Action)
    requires Lists(c) && Inv(w) && Orderly(w) && Enabled(c, w, a)
    requires a.Foreign? || a.CloseClient? || a.ReadPush? || a.Push? || a.HangUp? || a.CloseBroker?
    ensures Orderly(Apply(c, w, a))
  {
    hide Carries, TWire, BrokerOk, True, Answer, FrameOf, CallOk, Handle, Refusal, NextFrame,
         PushFrame, Orderly, Expected, Pushed, Grown;
    SameBroker(w.b);
    if a.Foreign? {
      HandleKeeps(c, w.b, a.f);
    } else if a.Push? {
      PushKeeps(c, w);
    }
    OrderlyRest(w, Apply(c, w, a));
  }

  lemma SameBroker(b: Broker)
    ensures Grown(b, b) && Grown(b, b.(closed := true))
  {
  }

  lemma OrderlyStep(c: Config, w: World, a: Action)
    requires Lists(c) && !c.timeouts && Inv(w) && Orderly(w) && Enabled(c, w, a)
    ensures Orderly(Apply(c, w, a))
  {
    hide Inv, Carries, TWire, Answer, FrameOf, Handle, Refusal, NextFrame, Orderly, ServeOne, PushSome;
    if a.Invoke? || a.InvokeBroken? {
      OrderlyInvoke(c, w, a);
    } else if a.Serve? {
      OrderlyServe(c, w);
    } else if a.Abandon? {
      OrderlyFinish(w, Failed(Closed), Apply(c, w, a));
    } else if a.Receive? {
      OrderlyReceive(c, w);
    } else {
      OrderlyQuiet(c, w, a);
    }
  }

  lemma OrderlyReceive(c: Config, w: World)
    requires Inv(w) && Orderly(w) && Enabled(c, w, Receive)
    ensures Orderly(Apply(c, w, Receive))
  {
    hide Carries, TWire, BrokerOk, True, Answer, FrameOf, CallOk, NextFrame, Orderly;
    Head(w.down, w.downq);
    OrderlyFinish(w, Apply(c, w, Receive).calls[w.client.id].outcome, Apply(c, w, Receive));
  }

  lemma {:induction false} RunOrderly(c: Config, acts: seq<Action>)
    requires Lists(c) && !c.timeouts
    ensures Run(c, acts).Some? ==> Orderly(Run(c, acts).value)
  {
    if acts != [] && Run(c, acts).Some? {
      RunOrderly(c, acts[..|acts| - 1]);
      RunInv(c, acts[..|acts| - 1]);
      OrderlyStep(c, Run(c, acts[..|acts| - 1]).value, acts[|acts| - 1]);
    }
  }

  // ---- every request once, in order, and what it published stays ----

  /** The calls whose requests have been handled or are in line, in the order they were written. */
  function Line(w: World): (line: seq<nat>)
    ensures |line| == |w.served| + |w.upq|
    ensures forall k :: 0 <= k < |line| ==>
              line[k] == if k < |w.served| then w.served[k].id else w.upq[k - |w.served|].id
  {
    seq(|w.served|, k requires 0 <= k < |w.served| => w.served[k].id)
    + seq(|w.upq|, k requires 0 <= k < |w.upq| => w.upq[k].id)
  }

  /** The broker can store what the request publishes. */
  predicate Accepts(b: Broker, q: Request) {
    (q.PublishOne? || q.PublishMany? || q.PublishAsync?) && !b.closed && q.topic in b.logs
  }

  /** Since the broker was `b`, nothing is lost, and what the request published then stands where that log ended. */
  ghost predicate Kept(b: Broker, q: Request, now: Broker) {
    Grown(b, now) && (Accepts(b, q) ==> Holds(now, q.topic, |b.logs[q.topic]|, PayloadsOf(q)))
  }

  ghost predicate ServedOk(w: World, k: int)
    requires 0 <= k < |w.served|
  {
    w.served[k].id < |w.calls| && Kept(w.served[k].b, w.calls[w.served[k].id].q, w.b)
    && forall l :: k < l < |w.served| ==> Kept(w.served[k].b, w.calls[w.served[k].id].q, w.served[l].b)
  }

  /** Every call that was handed over is in the line, nothing is in it twice, and what was served is kept. */
  ghost predicate Accounted(w: World) {
    var line := Line(w);
    (forall j, k :: 0 <= j < k < |line| ==> line[j] < line[k]) && (forall k :: 0 <= k < |line| ==> line[k] < |w.calls|)
    && (forall i :: 0 <= i < |w.calls| && w.calls[i].outcome == Handed ==> InLine(w, i))
    && forall k :: 0 <= k < |w.served| ==> ServedOk(w, k)
  }

  ghost predicate InLine(w: World, i: int) {
    exists k :: 0 <= k < |Line(w)| && Line(w)[k] == i
  }

  lemma KeptLater(b: Broker, q: Request, now: Broker, later: Broker)
    requires Kept(b, q, now) && Grown(now, later)
    ensures Kept(b, q, later)
  {
  }

  /** The line stays, calls go on as they were or finish, and the broker moves on. */
  lemma AccountedRest(w: World, w': World)
    requires Accounted(w) && Grown(w.b, w'.b) && w'.served == w.served && w'.upq == w.upq && |w'.calls| >= |w.calls|
    requires forall i :: 0 <= i < |w.calls| ==> w'.calls[i].q == w.calls[i].q
    requires forall i :: 0 <= i < |w'.calls| && w'.calls[i].outcome == Handed ==> i < |w.calls| && w.calls[i].outcome == Handed
    ensures Accounted(w')
  {
    hide Kept, Grown, Line;
    assert Line(w') == Line(w);
    forall i | 0 <= i < |w'.calls| && w'.calls[i].outcome == Handed ensures InLine(w', i) {
      assert InLine(w, i);
    }
    forall k | 0 <= k < |w'.served| ensures ServedOk(w', k) {
      assert ServedOk(w, k);
      KeptLater(w.served[k].b, w.calls[w.served[k].id].q, w.b, w'.b);
    }
  }

  lemma AccountedSent(w: World, q: Request)
    requires Accounted(w)
    ensures Accounted(Sent(w, q))
  {
    hide Kept, FrameOf, Line;
    var w' := Sent(w, q);
    assert Line(w') == Line(w) + [|w.calls|];
    forall i | 0 <= i < |w'.calls| && w'.calls[i].outcome == Handed ensures InLine(w', i) {
      if i < |w.calls| {
        assert InLine(w, i);
        var k :| 0 <= k < |Line(w)| && Line(w)[k] == i;
        assert Line(w')[k] == i;
      } else {
        assert Line(w')[|Line(w)|] == i;
      }
    }
    forall k | 0 <= k < |w'.served| ensures ServedOk(w', k) {
      assert ServedOk(w, k);
    }
  }

  /** The first in line is served: what it publishes is stored behind the log the server finds. */
  lemma AccountedServe(c: Config, w: World)
    requires Inv(w) && Accounted(w) && Enabled(c, w, Serve)
    ensures Accounted(ServeOne(c, w))
  {
    hide Kept, Grown, Line, Handle, Carries, TWire, FrameOf, Refusal, NextFrame, BrokerOk, PhaseOk, CallOk, Room;
    Head(w.up, w.upq);
    var t := w.upq[0];
    assert SentOk(w, t);
    HandleKeeps(c, w.b, t.f);
    ServedKept(c, w.b, w.calls[t.id].q);
    AccountedNext(w, ServeOne(c, w));
  }

  /** The first in line has moved over to what was served. */
  lemma AccountedNext(w: World, w': World)
    requires Accounted(w) && w.upq != [] && w'.calls == w.calls && w'.upq == w.upq[1..] && w.upq[0].id < |w.calls|
    requires w'.served == w.served + [Served(w.upq[0].id, w.b)] && Kept(w.b, w.calls[w.upq[0].id].q, w'.b) && Grown(w.b, w'.b)
    ensures Accounted(w')
  {
    hide Kept, Grown, Line;
    assert Line(w') == Line(w);
    forall i | 0 <= i < |w'.calls| && w'.calls[i].outcome == Handed ensures InLine(w', i) {
      assert InLine(w, i);
    }
    forall k | 0 <= k < |w'.served| ensures ServedOk(w', k) {
      if k < |w.served| {
        assert ServedOk(w, k);
        KeptLater(w.served[k].b, w.calls[w.served[k].id].q, w.b, w'.b);
      }
    }
  }

  lemma ServedKept(c: Config, b: Broker, q: Request)
    requires BrokerOk(b) && Room(b, FrameOf(q)) && Refusal(q, false, false) == None
    ensures Kept(b, q, Handle(c, b, FrameOf(q)).b)
  {
    hide Handle, FrameOf, Refusal, Room, Grown, BrokerOk;
    HandleKeeps(c, b, FrameOf(q));
    if Accepts(b, q) {
      PublishIsStored(c, b, q);
    }
  }

  lemma AccountedStep(c: Config, w: World, a: Action)
    requires Lists(c) && !c.timeouts && Inv(w) && Accounted(w) && Enabled(c, w, a)
    ensures Accounted(Apply(c, w, a))
  {
    hide Accounted, Handle, Answer, TWire, Carries, NextFrame, Pushed, Refusal, FrameOf, ServeOne, Grown, True, Inv, Enabled,
         PushSome, Extended, Sent;
    if a.Serve? {
      AccountedServe(c, w);
    } else if Sends(w, a) {
      AccountedSent(w, a.q);
    } else {
      QuietStep(c, w, a);
      QuietCalls(c, w, a);
      AccountedRest(w, Apply(c, w, a));
    }
  }

  /** The step writes a request. */
  predicate Sends(w: World, a: Action) {
    a.Invoke? && Refusal(a.q, w.closed, IsStreaming(w)) == None && !w.broken
  }

  lemma QuietStep(c: Config, w: World, a: Action)
    requires Inv(w) && Enabled(c, w, a) && !a.Serve? && !Sends(w, a)
    ensures var w' := Apply(c, w, a); Grown(w.b, w'.b) && w'.served == w.served && w'.upq == w.upq
  {
    hide Handle, Answer, TWire, Carries, NextFrame, Pushed, Refusal, FrameOf, Grown, True, QueuesOk, PhaseOk, CallOk, BrokerOk;
    SameBroker(w.b);
    if a.Foreign? {
      HandleKeeps(c, w.b, a.f);
    }
  }

  lemma QuietCalls(c: Config, w: World, a: Action)
    requires Lists(c) && !c.timeouts && Inv(w) && Enabled(c, w, a) && !a.Serve? && !Sends(w, a)
    ensures var w' := Apply(c, w, a);
            |w'.calls| >= |w.calls| && (forall i :: 0 <= i < |w.calls| ==> w'.calls[i].q == w.calls[i].q)
            && forall i :: 0 <= i < |w'.calls| && w'.calls[i].outcome == Handed ==> i < |w.calls| && w.calls[i].outcome == Handed
  {
    hide Handle, Answer, TWire, NextFrame, Pushed, Refusal, FrameOf, Inv, Enabled, ServeOne, PushSome;
    StepKeeps(c, w, a);
    OnlyAsyncsHanded(Apply(c, w, a));
    if w.client.Awaiting? {
      WaitsForCall(w);
    }
    CallsLeft(c, w, a);
  }

  /** Besides serving and sending, a step adds a refused call, or ends the awaited one, or leaves the calls alone. */
  lemma CallsLeft(c: Config, w: World, a: Action)
    requires Enabled(c, w, a) && !a.Serve? && !Sends(w, a) && (w.client.Awaiting? ==> w.client.id < |w.calls|)
    ensures var calls := Apply(c, w, a).calls;
            calls == w.calls || (|calls| == |w.calls| + 1 && calls[..|w.calls|] == w.calls && calls[|w.calls|].outcome.Failed?)
            || (w.client.Awaiting? && exists o :: calls == w.calls[w.client.id := w.calls[w.client.id].(outcome := o)])
  {
    hide Handle, Answer, TWire, NextFrame, Pushed, Refusal, FrameOf, Room, Window, EncodeFrame, ErrorFrame,
         HeaderPool.PushAll, TagAll, Survivors, Oversize;
    if a.Receive? {
      assert Apply(c, w, a).calls
          == w.calls[w.client.id := w.calls[w.client.id].(outcome := Apply(c, w, a).calls[w.client.id].outcome)];
    }
  }

  lemma OnlyAsyncsHanded(w: World)
    requires Inv(w)
    ensures forall i :: 0 <= i < |w.calls| && w.calls[i].outcome == Handed ==> w.calls[i].q.PublishAsync?
  {
    hide QueuesOk, PhaseOk, BrokerOk;
    forall i | 0 <= i < |w.calls| && w.calls[i].outcome == Handed ensures w.calls[i].q.PublishAsync? {
      assert CallOk(w, i);
    }
  }

  lemma {:induction false} RunAccounted(c: Config, acts: seq<Action>)
    requires Lists(c) && !c.timeouts
    ensures Run(c, acts).Some? ==> Accounted(Run(c, acts).value)
  {
    if acts != [] && Run(c, acts).Some? {
      RunAccounted(c, acts[..|acts| - 1]);
      RunInv(c, acts[..|acts| - 1]);
      AccountedStep(c, Run(c, acts[..|acts| - 1]).value, acts[|acts| - 1]);
    }
  }

  // ---- what holds over every run ----

  /**
   Fire and forget, but not lost on the way: the request of a call that was handed over is
   in line or has been served, and if the broker was open then and had the topic, the
   message stands in the log where that log ended, for good.
   */
  lemma HandedIsStored(c: Config, acts: seq<Action>, i: nat)
    requires Lists(c) && !c.timeouts && Run(c, acts).Some? && i < |Run(c, acts).value.calls|
    requires Run(c, acts).value.calls[i].outcome == Handed
    ensures var w := Run(c, acts).value; var q := w.calls[i].q;
            q.PublishAsync?
            && ((exists k :: 0 <= k < |w.upq| && w.upq[k].id == i)
                || exists k :: 0 <= k < |w.served| && w.served[k].id == i && Grown(w.served[k].b, w.b)
                               && (!w.served[k].b.closed && q.topic in w.served[k].b.logs ==>
                                     Holds(w.b, q.topic, |w.served[k].b.logs[q.topic]|, [q.payload])))
  {
    hide Run, Inv, Grown, Holds;
    RunInv(c, acts);
    RunAccounted(c, acts);
    var w := Run(c, acts).value;
    OnlyAsyncsHanded(w);
    assert InLine(w, i);
    var k :| 0 <= k < |Line(w)| && Line(w)[k] == i;
    if k < |w.served| {
      assert ServedOk(w, k);
    } else {
      assert w.upq[k - |w.served|].id == i;
    }
  }

  /**
   Each request is served at most once and in the order of the calls, so what two of them
   publish on one topic stands in the log in that order, each in its own range.
   */
  lemma ServedInOrder(c: Config, acts: seq<Action>, j: nat, k: nat)
    requires Lists(c) && !c.timeouts && Run(c, acts).Some? && j < k < |Run(c, acts).value.served|
    ensures var w := Run(c, acts).value; var (s, t) := (w.served[j], w.served[k]);
            s.id < t.id < |w.calls| && Grown(s.b, t.b)
            && var (p, q) := (w.calls[s.id].q, w.calls[t.id].q);
               Accepts(s.b, p) && Accepts(t.b, q) && p.topic == q.topic ==>
                 |s.b.logs[p.topic]| + |PayloadsOf(p)| <= |t.b.logs[p.topic]|
                 && Holds(w.b, p.topic, |s.b.logs[p.topic]|, PayloadsOf(p))
                 && Holds(w.b, q.topic, |t.b.logs[q.topic]|, PayloadsOf(q))
  {
    hide Run, Grown;
    RunAccounted(c, acts);
    var w := Run(c, acts).value;
    assert ServedOk(w, j) && ServedOk(w, k) && Line(w)[j] < Line(w)[k];
  }

  /**
   Pairing.  The frame an awaiting call reads is the answer to its own request: it has
   that request's opcode or reports an error, and what the call makes of it is true.
   */
  lemma Paired(c: Config, acts: seq<Action>)
    requires Lists(c) && !c.timeouts && Run(c, acts).Some? && Run(c, acts).value.client.Awaiting?
    requires NextFrame(Run(c, acts).value.down).0.Ok?
    ensures var w := Run(c, acts).value; var (id, f) := (w.client.id, NextFrame(w.down).0.value);
            id < |w.calls| && w.downq != [] && w.downq[0] == Tagged(f, id)
            && (f.op == OP_ERROR || f.op == FrameOf(w.calls[id].q).op)
            && True(w.b, w.calls[id].q, Answer(w.calls[id].q, f))
  {
    hide Carries, TWire;
    RunInv(c, acts);
    Head(Run(c, acts).value.down, Run(c, acts).value.downq);
  }

  /**
   Whatever a finished call was told is true of the broker then and at any later time:
   a published payload stands in the topic's log at the offset returned.
   */
  lemma ToldTheTruth(c: Config, acts: seq<Action>, i: nat)
    requires Lists(c) && !c.timeouts && Run(c, acts).Some? && i < |Run(c, acts).value.calls|
    ensures Truthful(Run(c, acts).value, i)
  {
    RunInv(c, acts);
    assert CallOk(Run(c, acts).value, i);
  }

  /**
   No two publishes are told the same offset: of two on one topic the later call's range
   lies behind the earlier one's, so together with `ToldTheTruth` each has its own stretch
   of the log, equal payloads or not.
   */
  lemma RangesIncrease(c: Config, acts: seq<Action>, topic: Bytes, i: nat, j: nat)
    requires Lists(c) && !c.timeouts && Run(c, acts).Some? && i < j < |Run(c, acts).value.calls|
    requires var calls := Run(c, acts).value.calls; PublishedOn(calls[i], topic) && PublishedOn(calls[j], topic)
    ensures var calls := Run(c, acts).value.calls;
            calls[i].outcome.base as int + |PayloadsOf(calls[i].q)| <= calls[j].outcome.base as int
  {
    RunOrderly(c, acts);
    var calls := Run(c, acts).value.calls;
    assert Behind(calls, j) && calls[..j][i] == calls[i];
  }

  /** A listing holds topics only, and every topic there was when it was asked for. */
  lemma ListingComplete(c: Config, acts: seq<Action>, i: nat)
    requires Lists(c) && !c.timeouts && Run(c, acts).Some? && i < |Run(c, acts).value.calls|
    requires Run(c, acts).value.calls[i].outcome.Listed?
    ensures var w := Run(c, acts).value; var names := w.calls[i].outcome.names;
            (forall n :: n in names ==> n in w.b.logs) && (forall n :: n in w.calls[i].known ==> n in names)
  {
    RunOrderly(c, acts);
    ToldTheTruth(c, acts, i);
    assert Informed(Run(c, acts).value, i);
  }

  /**
   A waiting call never waits for nothing: its answer can be read, or its request can be
   served, provided the logs have room for what the request may hold.
   */
  lemma NeverHangs(c: Config, acts: seq<Action>)
    requires Lists(c) && !c.timeouts && Run(c, acts).Some? && Run(c, acts).value.client.Awaiting?
    requires var w := Run(c, acts).value; forall f :: NextFrame(w.up).0 == Ok(f) ==> Room(w.b, f)
    ensures var w := Run(c, acts).value; Enabled(c, w, Receive) || Enabled(c, w, Serve)
  {
    hide Run, Inv, Enabled, NextFrame;
    RunInv(c, acts);
    SomethingToDo(c, Run(c, acts).value);
  }

  lemma SomethingToDo(c: Config, w: World)
    requires Inv(w) && w.client.Awaiting? && forall f :: NextFrame(w.up).0 == Ok(f) ==> Room(w.b, f)
    ensures Enabled(c, w, Receive) || Enabled(c, w, Serve)
  {
    hide Carries, TWire, Answer, True, NextFrame, CallOk, BrokerOk, Room, Pushes;
    Head(w.down, w.downq);
    Head(w.up, w.upq);
  }

  /** The server never reads anything from this client but its requests, whole; while it pushes, nothing at all. */
  lemma OnlyRequestsArrive(c: Config, acts: seq<Action>)
    requires Lists(c) && !c.timeouts && Run(c, acts).Some?
    ensures var w := Run(c, acts).value;
            (NextFrame(w.up).0 == Err(Truncated)
             || exists i :: 0 <= i < |w.calls| && NextFrame(w.up).0 == Ok(FrameOf(w.calls[i].q)))
            && (w.server.Pushing? && w.client != Over && !w.broken ==> w.up == [])
  {
    hide Carries;
    RunInv(c, acts);
    var w := Run(c, acts).value;
    Head(w.up, w.upq);
    if w.upq != [] {
      assert SentOk(w, w.upq[0]);
    }
  }

  /** After the acknowledgement of a subscription only messages come, each the next one of the topic's log. */
  lemma OnlyMessagesFollow(c: Config, acts: seq<Action>)
    requires Lists(c) && !c.timeouts && Run(c, acts).Some? && Run(c, acts).value.client.Streaming?
    ensures var w := Run(c, acts).value;
            NextFrame(w.down).0 == Err(Truncated)
            || (NextFrame(w.down).0.Ok? && NextFrame(w.down).0.value.op == OP_MESSAGE && w.client.id < |w.calls|
                && w.calls[w.client.id].q.Subscribe? && w.calls[w.client.id].q.topic in w.b.logs
                && w.got + Pushed(NextFrame(w.down).0.value) <= w.b.logs[w.calls[w.client.id].q.topic]
                && |Pushed(NextFrame(w.down).0.value)| == 1)
  {
    hide Run, NextFrame, Pushed;
    RunInv(c, acts);
    NextPush(Run(c, acts).value);
  }

  lemma NextPush(w: World)
    requires Inv(w) && w.client.Streaming?
    ensures w.client.id < |w.calls| && w.calls[w.client.id].q.Subscribe? && w.calls[w.client.id].q.topic in w.b.logs
    ensures w.downq == [] ==> NextFrame(w.down).0 == Err(Truncated)
    ensures w.downq != [] ==>
              NextFrame(w.down).0 == Ok(w.downq[0].f) && w.downq[0].f.op == OP_MESSAGE
              && w.got + Pushed(w.downq[0].f) <= w.b.logs[w.calls[w.client.id].q.topic]
              && |Pushed(w.downq[0].f)| == 1
  {
    hide Carries, TWire, Answer, True, NextFrame, Pushed, Refusal, FrameOf, CallOk;
    Head(w.down, w.downq);
    if w.downq != [] {
      var log := w.b.logs[w.calls[w.client.id].q.topic];
      assert w.downq[0].f == PushFrame(log[|w.got|]);
      PushedOne(log[|w.got|]);
      assert w.got + [log[|w.got|]] == log[..|w.got| + 1];
    }
  }

  /** What the client has read off the stream is a prefix of the topic's log, offsets from 0, wherever it was cut. */
  lemma ReceivedPrefix(c: Config, acts: seq<Action>)
    requires Lists(c) && !c.timeouts && Run(c, acts).Some? && Run(c, acts).value.client.Streaming?
    ensures var w := Run(c, acts).value;
            w.client.id < |w.calls| && w.calls[w.client.id].q.Subscribe? && w.calls[w.client.id].q.topic in w.b.logs
            && w.got <= w.b.logs[w.calls[w.client.id].q.topic]
            && forall k :: 0 <= k < |w.got| ==> w.got[k].offset as int == k
  {
    RunInv(c, acts);
  }

  /**
   Accepted implies pushable, timeouts or not: no message in any log is too long, so the
   stream loop never has to report one; a push takes the next 64 messages, or all there are.
   */
  lemma AcceptedIsPushable(c: Config, acts: seq<Action>, topic: Bytes)
    requires Run(c, acts).Some? && topic in Run(c, acts).value.b.logs
    ensures forall i :: 0 <= i < |Run(c, acts).value.b.logs[topic]| ==>
              |Run(c, acts).value.b.logs[topic][i].payload| <= MAX_MESSAGE
    ensures var w := Run(c, acts).value;
            Enabled(c, w, Push) ==>
              var rest := |w.b.logs[w.server.topic]| - w.server.next;
              rest > 0 && PushSome(c, w).server == Pushing(w.server.topic, w.server.next + if rest < 64 then rest else 64)
  {
    BrokerRunOk(c, acts);
    var w := Run(c, acts).value;
    if Enabled(c, w, Push) {
      NextWindow(w.b, w.server.topic, w.server.next);
    }
  }

  lemma {:induction false} BrokerRunOk(c: Config, acts: seq<Action>)
    ensures Run(c, acts).Some? ==> BrokerOk(Run(c, acts).value.b)
  {
    if acts != [] && Run(c, acts).Some? {
      BrokerRunOk(c, acts[..|acts| - 1]);
      BrokerStep(c, Run(c, acts[..|acts| - 1]).value, acts[|acts| - 1]);
    }
  }

  lemma BrokerStep(c: Config, w: World, a: Action)
    requires BrokerOk(w.b) && Enabled(c, w, a)
    ensures BrokerOk(Apply(c, w, a).b)
  {
    hide Handle, Answer, TWire, NextFrame, Pushed, Refusal, FrameOf;
    if a.Serve? {
      HandleKeeps(c, w.b, NextFrame(w.up).0.value);
    } else if a.Foreign? {
      HandleKeeps(c, w.b, a.f);
    }
  }

  // ---- waiting ends ----

  lemma RunSnoc(c: Config, acts: seq<Action>, a: Action)
    ensures Run(c, acts + [a]) ==
            match Run(c, acts)
            case None => None
            case Some(w) => if Enabled(c, w, a) then Some(Apply(c, w, a)) else None
  {
    assert (acts + [a])[..|acts|] == acts;
  }

  function Serves(acts: seq<Action>): nat {
    if acts == [] then 0 else Serves(acts[..|acts| - 1]) + if acts[|acts| - 1].Serve? then 1 else 0
  }

  /**
   A call waits for no more than the requests in front of it and its own: as long as it
   waits, every turn of the server takes one of them off, and nobody adds any.  With
   `NeverHangs`, its answer can be read after that many turns at the latest.
   */
  lemma {:induction false} BoundedWait(c: Config, acts: seq<Action>, more: seq<Action>)
    requires Lists(c) && !c.timeouts && Run(c, acts).Some? && Run(c, acts + more).Some?
    requires Run(c, acts).value.client.Awaiting? && Run(c, acts + more).value.client == Run(c, acts).value.client
    ensures Serves(more) + |Run(c, acts + more).value.upq| == |Run(c, acts).value.upq|
  {
    hide Inv, Apply, Enabled;
    assert more == [] ==> acts + more == acts;
    if more != [] {
      var init, a := more[..|more| - 1], more[|more| - 1];
      assert acts + more == (acts + init) + [a];
      RunSnoc(c, acts + init, a);
      RunInv(c, acts);
      RunInv(c, acts + init);
      CallsGrow(c, acts, init);
      WaitsForCall(Run(c, acts).value);
      StillWaiting(c, Run(c, acts + init).value, a);
      BoundedWait(c, acts, init);
    }
  }

  lemma WaitsForCall(w: World)
    requires Inv(w) && w.client.Awaiting?
    ensures w.client.id < |w.calls| && !w.calls[w.client.id].q.PublishAsync?
  {
  }

  lemma {:induction false} CallsGrow(c: Config, acts: seq<Action>, more: seq<Action>)
    requires Run(c, acts).Some? && Run(c, acts + more).Some?
    ensures |Run(c, acts).value.calls| <= |Run(c, acts + more).value.calls|
  {
    hide Apply, Enabled;
    assert more == [] ==> acts + more == acts;
    if more != [] {
      var init, a := more[..|more| - 1], more[|more| - 1];
      assert acts + more == (acts + init) + [a];
      RunSnoc(c, acts + init, a);
      CallsGrow(c, acts, init);
      CallsStep(c, Run(c, acts + init).value, a);
    }
  }

  lemma CallsStep(c: Config, w: World, a: Action)
    requires Enabled(c, w, a)
    ensures |Apply(c, w, a).calls| >= |w.calls|
  {
    hide Handle, Answer, TWire, NextFrame, Pushed, Refusal, FrameOf;
  }

  /** Who waits for an old call after a step did so before; the step took a request off the queue, or left it. */
  lemma StillWaiting(c: Config, w: World, a: Action)
    requires Inv(w) && Enabled(c, w, a) && Apply(c, w, a).client.Awaiting? && Apply(c, w, a).client.id < |w.calls|
    ensures w.client == Apply(c, w, a).client
    ensures |Apply(c, w, a).upq| + (if a.Serve? then 1 else 0) == |w.upq|
  {
    hide Handle, Answer, TWire, Carries, NextFrame, Pushed, Refusal, FrameOf, True, CallOk, BrokerOk, PhaseOk, Room,
         Window, EncodeFrame, ErrorFrame, HeaderPool.PushAll, TagAll, Survivors, Oversize, SentOk, ServeOne;
    if a.Serve? {
      OneServed(c, w);
    }
  }

  lemma OneServed(c: Config, w: World)
    requires Inv(w) && Enabled(c, w, Serve)
    ensures ServeOne(c, w).client == w.client && |ServeOne(c, w).upq| + 1 == |w.upq|
  {
    hide Handle, Carries, TWire, NextFrame, CallOk, BrokerOk, PhaseOk, Room, EncodeFrame, SentOk;
    Head(w.up, w.upq);
  }

  /** A stream never stalls: while the server pushes, a message can be read or written, or the subscriber has the whole log. */
  lemma NothingStalls(c: Config, acts: seq<Action>)
    requires Lists(c) && !c.timeouts && Run(c, acts).Some?
    requires Run(c, acts).value.client.Streaming? && Run(c, acts).value.server.Pushing?
    ensures var w := Run(c, acts).value;
            w.client.id < |w.calls| && w.calls[w.client.id].q.Subscribe? && w.calls[w.client.id].q.topic in w.b.logs
            && (Enabled(c, w, ReadPush) || Enabled(c, w, Push) || w.got == w.b.logs[w.calls[w.client.id].q.topic])
  {
    hide Run, Inv, Enabled, Window;
    RunInv(c, acts);
    SomethingToPush(c, Run(c, acts).value);
  }

  lemma SomethingToPush(c: Config, w: World)
    requires Inv(w) && w.client.Streaming? && w.server.Pushing?
    ensures w.client.id < |w.calls| && w.calls[w.client.id].q.Subscribe? && w.calls[w.client.id].q.topic in w.b.logs
    ensures Enabled(c, w, ReadPush) || Enabled(c, w, Push) || w.got == w.b.logs[w.calls[w.client.id].q.topic]
  {
    hide Carries, TWire, Answer, True, NextFrame, CallOk, BrokerOk, Window;
    Head(w.down, w.downq);
    var log := w.b.logs[w.server.topic];
    WindowContinues(log, w.server.next, PUSH_BATCH);
    assert log[..|log|] == log;
  }

  // ---- the price of going on after a timeout ----

  /** The first message of a topic is stored and told offset 0. */
  lemma FirstPublished(c: Config, t: Bytes, m: Bytes)
    requires Refusal(PublishOne(t, m), false, false) == None
    ensures var b := Broker(map[t := []], false);
            Room(b, FrameOf(PublishOne(t, m)))
            && Handle(c, b, FrameOf(PublishOne(t, m)))
               == Handled(Broker(map[t := [Msg(0, m)]], false), Some(Frame(OP_PUBLISH, Encode(Offset(0)))), None)
            && Sendable(FrameOf(PublishOne(t, m))) && Sendable(Frame(OP_PUBLISH, Encode(Offset(0))))
  {
    var b := Broker(map[t := []], false);
    CastsLossless(Body.Publish(t, m));
    assert Batched(Body.Publish(t, m)) == [m];
    assert Appended([], [m]) == [Msg(0, m)];
    assert b.logs[t := [Msg(0, m)]] == map[t := [Msg(0, m)]];
  }

  /** The answer to one publish is accepted as the answer to another. */
  lemma TakenForOwn(t: Bytes, m: Bytes)
    ensures Answer(PublishOne(t, m), Frame(OP_PUBLISH, Encode(Offset(0)))) == Published(0)
  {
    CastsLossless(Offset(0));
  }

  /** Up to the second request: the first one has been given up and is still under way. */
  lemma TwoAsked(c: Config, t: Bytes, m1: Bytes, m2: Bytes) returns (acts: seq<Action>, w: World)
    requires c.timeouts
    requires Refusal(PublishOne(t, m1), false, false) == None && Refusal(PublishOne(t, m2), false, false) == None
    ensures Run(c, acts) == Some(w) && |w.calls| == 2 && w.calls[1].q == PublishOne(t, m2) && w.client == Awaiting(1)
    ensures w.server == Answering && w.b == Broker(map[t := []], false) && w.down == []
    ensures w.up == [] + EncodeFrame(FrameOf(PublishOne(t, m1))) + EncodeFrame(FrameOf(PublishOne(t, m2)))
  {
    hide Handle, Answer, NextFrame, TWire, Run, Refusal, FrameOf, Encode, EncodeFrame, ServeOne, Room, True;
    var q1, q2 := PublishOne(t, m1), PublishOne(t, m2);
    acts := [Foreign(Frame(OP_CREATE_TOPIC, t))];
    w := INIT.(b := Broker(map[t := []], false));
    TopicMade(c, t, q1);
    RunSnoc(c, acts, Invoke(q1));
    acts, w := acts + [Invoke(q1)], Sent(w, q1);
    RunSnoc(c, acts, TimeOut);
    acts, w := acts + [TimeOut], Finish(w, Failed(Io));
    RunSnoc(c, acts, Invoke(q2));
    acts, w := acts + [Invoke(q2)], Sent(w, q2);
  }

  /** A client that has given up on one publish and makes another one is told the offset of the first. */
  lemma Mispaired(c: Config, t: Bytes, m1: Bytes, m2: Bytes) returns (acts: seq<Action>)
    requires c.timeouts && m1 != m2
    requires Refusal(PublishOne(t, m1), false, false) == None && Refusal(PublishOne(t, m2), false, false) == None
    ensures Run(c, acts).Some? && |Run(c, acts).value.calls| == 2
    ensures var w := Run(c, acts).value; var o := w.calls[1].outcome;
            o == Published(0) && w.b.logs == map[t := [Msg(0, m1)]] && !True(w.b, w.calls[1].q, o)
  {
    hide Handle, Answer, NextFrame, TWire, Run, Refusal, FrameOf, Encode, EncodeFrame, ServeOne, Room, True;
    var q2, r := PublishOne(t, m2), Frame(OP_PUBLISH, Encode(Offset(0)));
    var w: World;
    acts, w := TwoAsked(c, t, m1, m2);
    FirstServed(c, w, t, m1, EncodeFrame(FrameOf(q2)));
    RunSnoc(c, acts, Serve);
    acts, w := acts + [Serve], ServeOne(c, w);
    TakenForOwn(t, m2);
    NextFrameOn(r, []);
    assert w.down == EncodeFrame(r) + [];
    RunSnoc(c, acts, Receive);
    acts, w := acts + [Receive], Apply(c, w, Receive);
    NotHeld(w.b, t, m1, m2);
  }

  lemma TopicMade(c: Config, t: Bytes, q: Request)
    requires (q.PublishOne? || q.Subscribe?) && q.topic == t && Refusal(q, false, false) == None
    ensures Run(c, [Foreign(Frame(OP_CREATE_TOPIC, t))]) == Some(INIT.(b := Broker(map[t := []], false)))
  {
    var f := Frame(OP_CREATE_TOPIC, t);
    assert Run(c, []) == Some(INIT) && [Foreign(f)][..0] == [];
    assert Handle(c, INIT.b, f).b.logs == map[t := []];
  }

  lemma FirstServed(c: Config, w: World, t: Bytes, m: Bytes, rest: Bytes)
    requires Refusal(PublishOne(t, m), false, false) == None
    requires w.server == Answering && w.b == Broker(map[t := []], false) && w.down == []
    requires w.up == [] + EncodeFrame(FrameOf(PublishOne(t, m))) + rest
    ensures Enabled(c, w, Serve)
    ensures var w' := ServeOne(c, w); var r := Frame(OP_PUBLISH, Encode(Offset(0)));
            w'.b == Broker(map[t := [Msg(0, m)]], false) && w'.down == EncodeFrame(r) && Sendable(r)
            && w'.calls == w.calls && w'.client == w.client && w'.server == Answering
  {
    hide Handle, Refusal, FrameOf, Encode, EncodeFrame, Room, NextFrame;
    FirstPublished(c, t, m);
    NextFrameOn(FrameOf(PublishOne(t, m)), rest);
    assert w.up == EncodeFrame(FrameOf(PublishOne(t, m))) + rest;
  }

  lemma NotHeld(b: Broker, t: Bytes, m1: Bytes, m2: Bytes)
    requires b.logs == map[t := [Msg(0, m1)]] && m1 != m2
    ensures !True(b, PublishOne(t, m2), Published(0))
  {
    assert PayloadsOf(PublishOne(t, m2))[0] == m2;
  }

  /** Every finished call is told the truth in every run, exactly when no call gives up waiting and goes on. */
  lemma TruthIff(c: Config)
    requires Lists(c)
    ensures (forall acts, i :: Run(c, acts).Some? && 0 <= i < |Run(c, acts).value.calls| ==> Truthful(Run(c, acts).value, i))
            <==> !c.timeouts
  {
    if c.timeouts {
      var t, m1, m2: Bytes := [0x61], [], [0];
      Permits(t, m1);
      Permits(t, m2);
      var acts := Mispaired(c, t, m1, m2);
      assert !Truthful(Run(c, acts).value, 1);
    } else {
      forall acts, i | Run(c, acts).Some? && 0 <= i < |Run(c, acts).value.calls| ensures Truthful(Run(c, acts).value, i) {
        ToldTheTruth(c, acts, i);
      }
    }
  }

  ghost predicate Truthful(w: World, i: int)
    requires 0 <= i < |w.calls|
  {
    var o := w.calls[i].outcome;
    o == Pending || o.Failed? || True(w.b, w.calls[i].q, o)
  }

  lemma Permits(t: Bytes, m: Bytes)
    requires t == [0x61] && |m| <= 1
    ensures Refusal(PublishOne(t, m), false, false) == None
  {
  }
}
