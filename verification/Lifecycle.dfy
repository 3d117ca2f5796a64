/**
 The life of the server's connections (network/server.go:113-184 and 441-449): Serve
 loops accept and register, every registered connection has a handler counted by the
 wait group, and Close shuts all of them down and waits.  Any number of Serve and
 Close calls and handlers run at once; the mutex has an owner where it matters.
 */
module Lifecycle {
  import opened Words
  import opened Codec
  import opened Frames

  /**
   A connection: accepted but not through Serve's section; turned away; registered with
   its handler about to start; handled; taken out of `conns`; its socket closed by the
   handler; handler gone.
   */
  datatype Phase = Accepted | TurnedAway | Admitted | Running | Leaving | HungUp | Gone

  datatype Peer = Peer(phase: Phase, cancelled: bool, shut: bool)

  /** The one Close body: not begun, closing the sockets it collected, in `wg.Wait`, `closeDone` closed. */
  datatype Closer = NotStarted | Shutting(todo: set<nat>, cancelled: Option<nat>) | Waiting | Finished

  /** `admitting`: the Serve call that owns the mutex has put this connection into `conns` and not started its handler. */
  datatype State = State(closed: bool, conns: set<nat>, wg: int, peers: seq<Peer>, admitting: Option<nat>,
                         closer: Closer, returned: nat)

  datatype Action =
    | Accept
    | Register(i: nat)
    | Start
    | Deregister(i: nat)
    | HangUp(i: nat)
    | Exit(i: nat)
    | CloseBegin
    | CancelOne(i: nat)
    | ShutOne
    | WaitBegin
    | WaitEnd
    | CloseReturn

  const INIT := State(false, {}, 0, [], None, NotStarted, 0)

  predicate At(s: State, i: nat, phase: Phase) {
    i < |s.peers| && s.peers[i].phase == phase
  }

  predicate Enabled(s: State, a: Action) {
    match a
    case Accept => true
    case Register(i) => At(s, i, Accepted) && s.admitting == None
    case Start => s.admitting.Some? && At(s, s.admitting.value, Admitted)
    case Deregister(i) => At(s, i, Running) && s.admitting == None
    case HangUp(i) => At(s, i, Leaving)
    case Exit(i) => At(s, i, HungUp)
    case CloseBegin => s.closer == NotStarted && s.admitting == None
    case CancelOne(i) => s.closer.Shutting? && s.closer.cancelled == None && i in s.closer.todo && i < |s.peers|
    case ShutOne => s.closer.Shutting? && s.closer.cancelled.Some? && s.closer.cancelled.value < |s.peers|
    case WaitBegin => s.closer == Shutting({}, None)
    case WaitEnd => s.closer == Waiting && s.wg == 0
    case CloseReturn => s.closer == Finished
  }

  function Put(s: State, i: nat, p: Peer): State
    requires i < |s.peers|
  {
    s.(peers := s.peers[i := p])
  }

  function Apply(maxConns: int, s: State, a: Action): State
    requires Enabled(s, a)
  {
    match a
    case Accept => s.(peers := s.peers + [Peer(Accepted, false, false)])
    case Register(i) =>
      if s.closed || (maxConns > 0 && |s.conns| >= maxConns) then Put(s, i, Peer(TurnedAway, true, true))
      else Put(s, i, s.peers[i].(phase := Admitted)).(conns := s.conns + {i}, admitting := Some(i))
    case Start =>
      var i := s.admitting.value;
      Put(s, i, s.peers[i].(phase := Running)).(wg := s.wg + 1, admitting := None)
    case Deregister(i) =>
      Put(s, i, Peer(Leaving, s.peers[i].cancelled || i in s.conns, s.peers[i].shut)).(conns := s.conns - {i})
    case HangUp(i) => Put(s, i, s.peers[i].(phase := HungUp, shut := true))
    case Exit(i) => Put(s, i, s.peers[i].(phase := Gone)).(wg := s.wg - 1)
    case CloseBegin => s.(closed := true, closer := Shutting(s.conns, None))
    case CancelOne(i) => Put(s, i, s.peers[i].(cancelled := true)).(closer := Shutting(s.closer.todo, Some(i)))
    case ShutOne =>
      var i := s.closer.cancelled.value;
      Put(s, i, s.peers[i].(shut := true)).(closer := Shutting(s.closer.todo - {i}, None))
    case WaitBegin => s.(closer := Waiting)
    case WaitEnd => s.(closer := Finished)
    case CloseReturn => s.(returned := s.returned + 1)
  }

  function Run(maxConns: int, acts: seq<Action>): Option<State> {
    if acts == [] then Some(INIT)
    else
      match Run(maxConns, acts[..|acts| - 1])
      case None => None
      case Some(s) =>
        var a := acts[|acts| - 1];
        if Enabled(s, a) then Some(Apply(maxConns, s, a)) else None
  }

  // ---- the invariant ----

  function One(b: bool): nat {
    if b then 1 else 0
  }

  /** A handler that has been started and has not returned. */
  function Alive(p: Peer): nat {
    One(p.phase == Running || p.phase == Leaving || p.phase == HungUp)
  }

  /** A handler that has left `conns` and has not returned. */
  function Parting(p: Peer): nat {
    One(p.phase == Leaving || p.phase == HungUp)
  }

  function Sum(weight: Peer -> nat, ps: seq<Peer>): nat {
    if ps == [] then 0 else Sum(weight, ps[..|ps| - 1]) + weight(ps[|ps| - 1])
  }

  function Handlers(s: State): nat {
    Sum(Alive, s.peers)
  }

  function Departing(s: State): nat {
    Sum(Parting, s.peers)
  }

  lemma SumSnoc(weight: Peer -> nat, ps: seq<Peer>, p: Peer)
    ensures Sum(weight, ps + [p]) == Sum(weight, ps) + weight(p)
  {
    assert (ps + [p])[..|ps|] == ps;
  }

  lemma {:induction false} SumPut(weight: Peer -> nat, ps: seq<Peer>, i: nat, p: Peer)
    requires i < |ps|
    ensures Sum(weight, ps[i := p]) == Sum(weight, ps) - weight(ps[i]) + weight(p)
  {
    var n := |ps| - 1;
    if i < n {
      SumPut(weight, ps[..n], i, p);
      assert ps[i := p][..n] == ps[..n][i := p];
    } else {
      assert ps[i := p][..n] == ps[..n];
    }
  }

  /** Registered means handled, or about to be by the owner of the mutex. */
  ghost predicate PeerOk(s: State, i: int)
    requires 0 <= i < |s.peers|
  {
    (i in s.conns <==> s.peers[i].phase == Running || s.peers[i].phase == Admitted)
    && (s.peers[i].phase == Admitted <==> s.admitting == Some(i))
    && (s.closed && i in s.conns ==> Told(s, i)) && LeftOk(s.peers[i])
  }

  /** Whoever has left `conns`, or never got in, is cancelled; whoever is gone or turned away has its socket closed. */
  ghost predicate LeftOk(p: Peer) {
    (p.phase == Leaving || p.phase == HungUp || p.phase == Gone ==> p.cancelled)
    && (p.phase == HungUp || p.phase == Gone ==> p.shut)
    && (p.phase == TurnedAway ==> p.cancelled && p.shut)
  }

  /** The closing goroutine has cancelled and closed the connection, or still has it on its list. */
  ghost predicate Told(s: State, i: int)
    requires 0 <= i < |s.peers|
  {
    (s.closer.Shutting? && i in s.closer.todo) || (s.peers[i].cancelled && s.peers[i].shut)
  }

  ghost predicate Inv(maxConns: int, s: State) {
    s.wg == Handlers(s)
    && s.wg + One(s.admitting.Some?) == |s.conns| + Departing(s)
    && (maxConns > 0 ==> |s.conns| <= maxConns)
    && (forall i :: i in s.conns ==> i < |s.peers|)
    && (forall i :: 0 <= i < |s.peers| ==> PeerOk(s, i))
    && (s.closed <==> s.closer != NotStarted) && (s.closed ==> s.admitting == None)
    && (s.closer.Shutting? ==> ShuttingOk(s)) && (s.closer == Finished ==> s.wg == 0)
    && (s.returned > 0 ==> s.closer == Finished)
    && (s.admitting.Some? ==> s.admitting.value < |s.peers|)
  }

  ghost predicate ShuttingOk(s: State)
    requires s.closer.Shutting?
  {
    (forall i :: i in s.closer.todo ==> i < |s.peers|)
    && (s.closer.cancelled.Some? ==> s.closer.cancelled.value in s.closer.todo && s.peers[s.closer.cancelled.value].cancelled)
  }

  /** One connection moves on: what that does to the two sums. */
  lemma CountPut(s: State, t: State, i: nat)
    requires i < |s.peers| == |t.peers| && t.peers == s.peers[i := t.peers[i]]
    ensures Handlers(t) == Handlers(s) - Alive(s.peers[i]) + Alive(t.peers[i])
    ensures Departing(t) == Departing(s) - Parting(s.peers[i]) + Parting(t.peers[i])
  {
    SumPut(Alive, s.peers, i, t.peers[i]);
    SumPut(Parting, s.peers, i, t.peers[i]);
  }

  /** The connection a step moves on, if it does. */
  function Subject(s: State, a: Action): (i: int)
    requires Enabled(s, a)
    ensures i < |s.peers|
  {
    match a
    case Register(i) => i
    case Start => s.admitting.value
    case Deregister(i) => i
    case HangUp(i) => i
    case Exit(i) => i
    case CancelOne(i) => i
    case ShutOne => s.closer.cancelled.value
    case _ => -1
  }

  lemma CountStep(m: int, s: State, a: Action)
    requires s.wg == Handlers(s) && s.wg + One(s.admitting.Some?) == |s.conns| + Departing(s) && Enabled(s, a)
    requires Subject(s, a) >= 0 ==> PeerOk(s, Subject(s, a))
    ensures var s' := Apply(m, s, a);
            s'.wg == Handlers(s') && s'.wg + One(s'.admitting.Some?) == |s'.conns| + Departing(s')
  {
    hide Sum;
    var s', i := Apply(m, s, a), Subject(s, a);
    if a.Accept? {
      SumSnoc(Alive, s.peers, Peer(Accepted, false, false));
      SumSnoc(Parting, s.peers, Peer(Accepted, false, false));
    } else if i >= 0 {
      CountPut(s, s', i);
    }
  }

  lemma PeersStep(m: int, s: State, a: Action)
    requires Inv(m, s) && Enabled(s, a)
    ensures var s' := Apply(m, s, a); forall i :: 0 <= i < |s'.peers| ==> PeerOk(s', i)
  {
    var s' := Apply(m, s, a);
    forall i | 0 <= i < |s'.peers| ensures PeerOk(s', i) {
      if i < |s.peers| {
        assert PeerOk(s, i);
      }
    }
  }

  lemma {:induction false} RunInv(m: int, acts: seq<Action>)
    ensures Run(m, acts).Some? ==> Inv(m, Run(m, acts).value)
  {
    if acts != [] && Run(m, acts).Some? {
      var s, a := Run(m, acts[..|acts| - 1]).value, acts[|acts| - 1];
      RunInv(m, acts[..|acts| - 1]);
      CountStep(m, s, a);
      PeersStep(m, s, a);
      RestStep(m, s, a);
    }
  }

  lemma RestStep(m: int, s: State, a: Action)
    requires Inv(m, s) && Enabled(s, a)
    ensures var s' := Apply(m, s, a);
            (m > 0 ==> |s'.conns| <= m) && (forall i :: i in s'.conns ==> i < |s'.peers|)
            && (s'.closed <==> s'.closer != NotStarted) && (s'.closed ==> s'.admitting == None)
            && (s'.closer.Shutting? ==> ShuttingOk(s')) && (s'.closer == Finished ==> s'.wg == 0)
            && (s'.returned > 0 ==> s'.closer == Finished)
            && (s'.admitting.Some? ==> s'.admitting.value < |s'.peers|)
  {
    if a.Exit? {
      assert PeerOk(s, a.i);
      CountStep(m, s, a);
    }
  }

  // ---- what the server promises, over every run ----

  /**
   The wait group counts exactly the handlers that run; they are the registered
   connections and those just leaving, and a positive limit bounds the registered ones.
   */
  lemma CoverAndBound(m: int, acts: seq<Action>)
    requires Run(m, acts).Some?
    ensures var s := Run(m, acts).value;
            s.wg == Handlers(s) && (m > 0 ==> |s.conns| <= m)
            && s.wg + One(s.admitting.Some?) == |s.conns| + Departing(s)
            && forall i :: i in s.conns && s.admitting != Some(i) ==> At(s, i, Running)
  {
    RunInv(m, acts);
    var s := Run(m, acts).value;
    forall i | i in s.conns && s.admitting != Some(i) ensures At(s, i, Running) {
      assert PeerOk(s, i);
    }
  }

  /**
   The limit bounds the registered connections, not the handlers: one that has left
   `conns` may still be running when the next is let in, so with any limit there can be
   any number of handlers.
   */
  lemma ManyHandlers(m: int, k: nat) returns (acts: seq<Action>)
    ensures Run(m, acts).Some? && Run(m, acts).value.wg == k
  {
    acts := [];
    var s := INIT;
    for n := 0 to k
      invariant Run(m, acts) == Some(s) && !s.closed && s.conns == {} && s.admitting == None
      invariant s.wg == |s.peers| == n
    {
      acts, s := OneMore(m, acts, s);
    }
  }

  /** One more connection is accepted, handled and taken out of `conns`, its handler not having returned. */
  lemma OneMore(m: int, acts: seq<Action>, s: State) returns (acts': seq<Action>, s': State)
    requires Run(m, acts) == Some(s) && !s.closed && s.conns == {} && s.admitting == None
    ensures Run(m, acts') == Some(s') && !s'.closed && s'.conns == {} && s'.admitting == None
    ensures s'.wg == s.wg + 1 && |s'.peers| == |s.peers| + 1
  {
    hide Run;
    var i := |s.peers|;
    acts', s' := TakeStep(m, acts, s, Accept);
    acts', s' := TakeStep(m, acts', s', Register(i));
    acts', s' := TakeStep(m, acts', s', Start);
    acts', s' := TakeStep(m, acts', s', Deregister(i));
  }

  lemma TakeStep(m: int, acts: seq<Action>, s: State, a: Action) returns (acts': seq<Action>, s': State)
    requires Run(m, acts) == Some(s) && Enabled(s, a)
    ensures Run(m, acts') == Some(s') && s' == Apply(m, s, a)
  {
    RunSnoc(m, acts, a);
    acts', s' := acts + [a], Apply(m, s, a);
  }

  /** The handlers are within a bound exactly when the registered connections leave room for those still departing. */
  lemma HandlersWithin(m: int, acts: seq<Action>, bound: int)
    requires Run(m, acts).Some?
    ensures var s := Run(m, acts).value;
            Handlers(s) <= bound <==> |s.conns| + Departing(s) <= bound + One(s.admitting.Some?)
  {
    RunInv(m, acts);
  }

  lemma RunSnoc(m: int, acts: seq<Action>, a: Action)
    ensures Run(m, acts + [a]) ==
            match Run(m, acts)
            case None => None
            case Some(s) => if Enabled(s, a) then Some(Apply(m, s, a)) else None
  {
    assert (acts + [a])[..|acts|] == acts;
  }

  /** Closing and returning from Close are for good. */
  lemma {:induction false} RunOn(m: int, acts: seq<Action>, more: seq<Action>)
    requires Run(m, acts + more).Some?
    ensures Run(m, acts).Some?
    ensures var s, t := Run(m, acts).value, Run(m, acts + more).value;
            (s.closed ==> t.closed && t.conns <= s.conns) && s.returned <= t.returned && |s.peers| <= |t.peers|
  {
    if more == [] {
      assert acts + more == acts;
    } else {
      var init, a := more[..|more| - 1], more[|more| - 1];
      assert acts + more == (acts + init) + [a];
      RunSnoc(m, acts + init, a);
      RunOn(m, acts, init);
      RunInv(m, acts + init);
      StepOn(m, Run(m, acts + init).value, a);
    }
  }

  lemma StepOn(m: int, s: State, a: Action)
    requires Enabled(s, a) && (s.closed ==> s.admitting == None)
    ensures var t := Apply(m, s, a);
            (s.closed ==> t.closed && t.conns <= s.conns) && s.returned <= t.returned && |s.peers| <= |t.peers|
  {
  }

  /**
   Once any Close call has returned, and at every later moment, no handler runs and
   nothing is registered: connections accepted from then on are turned away.
   */
  lemma QuietOnceClosed(m: int, acts: seq<Action>, more: seq<Action>)
    requires Run(m, acts + more).Some? && Run(m, acts).Some? && Run(m, acts).value.returned > 0
    ensures var t := Run(m, acts + more).value;
            t.wg == 0 && t.conns == {} && t.admitting == None
            && forall i :: 0 <= i < |t.peers| ==>
                 t.peers[i].phase == Accepted || t.peers[i].phase == TurnedAway || t.peers[i].phase == Gone
  {
    RunOn(m, acts, more);
    RunInv(m, acts + more);
    var t := Run(m, acts + more).value;
    forall i | 0 <= i < |t.peers|
      ensures t.peers[i].phase == Accepted || t.peers[i].phase == TurnedAway || t.peers[i].phase == Gone
      ensures i !in t.conns
    {
      NoneAlive(t.peers, i);
      assert PeerOk(t, i);
    }
  }

  lemma {:induction false} NoneAlive(ps: seq<Peer>, i: nat)
    requires i < |ps|
    ensures Sum(Alive, ps) >= Alive(ps[i])
  {
    if i < |ps| - 1 {
      NoneAlive(ps[..|ps| - 1], i);
    }
  }

  /** When Close starts to wait, everyone still registered has been cancelled and their socket closed, and nobody joins. */
  lemma EverybodyTold(m: int, acts: seq<Action>, i: nat)
    requires Run(m, acts).Some? && Run(m, acts).value.closer == Waiting
    ensures var s := Run(m, acts).value;
            (i in s.conns ==> i < |s.peers| && s.peers[i].cancelled && s.peers[i].shut) && !Enabled(s, Start)
  {
    RunInv(m, acts);
    if i in Run(m, acts).value.conns {
      assert PeerOk(Run(m, acts).value, i);
    }
  }

  /** Nobody is left behind: in every run a handler that is gone has cancelled its context and closed its socket. */
  lemma NobodyLeftBehind(m: int, acts: seq<Action>, i: nat)
    requires Run(m, acts).Some? && i < |Run(m, acts).value.peers|
    ensures var s := Run(m, acts).value; var p := s.peers[i];
            (p.phase == Gone || p.phase == HungUp || p.phase == TurnedAway ==> p.cancelled && p.shut && i !in s.conns)
            && (p.phase == Leaving ==> p.cancelled && i !in s.conns)
  {
    RunInv(m, acts);
    assert PeerOk(Run(m, acts).value, i);
  }

  // ---- Close is never stuck ----

  function Left(p: Peer): nat {
    if p.phase == Running then 3 else if p.phase == Leaving then 2 else if p.phase == HungUp then 1 else 0
  }

  /** How many steps the closing goroutine and the handlers can still take. */
  function Remaining(s: State): nat {
    Sum(Left, s.peers) + Chores(s.closer)
  }

  /** Those of the closing goroutine. */
  function Chores(closer: Closer): nat {
    match closer
    case NotStarted => 0
    case Shutting(todo, cancelled) => 2 * |todo| + 2 - One(cancelled.Some?)
    case Waiting => 1
    case Finished => 0
  }

  /** The steps of the closing goroutine and of the handlers. */
  predicate Winding(a: Action) {
    a.Deregister? || a.HangUp? || a.Exit? || a.CancelOne? || a.ShutOne? || a.WaitBegin? || a.WaitEnd?
  }

  /** Each such step brings Close nearer to its end. */
  lemma WindingDown(m: int, acts: seq<Action>, a: Action)
    requires Run(m, acts).Some? && Enabled(Run(m, acts).value, a) && Winding(a)
    ensures Remaining(Apply(m, Run(m, acts).value, a)) < Remaining(Run(m, acts).value)
  {
    RunInv(m, acts);
    var s := Run(m, acts).value;
    WindingStep(m, s, a);
  }

  /** Once closing has begun, no step of anybody else puts that end further off. */
  lemma NothingWindsUp(m: int, acts: seq<Action>, a: Action)
    requires Run(m, acts).Some? && Run(m, acts).value.closed && Enabled(Run(m, acts).value, a)
    ensures Remaining(Apply(m, Run(m, acts).value, a)) <= Remaining(Run(m, acts).value)
  {
    RunInv(m, acts);
    var s := Run(m, acts).value;
    OtherStep(m, s, a);
  }

  /**
   The bound on all that is left: from a closed state, a run takes at most `Remaining`
   steps of the closing goroutine and the handlers, whatever else happens in between.
   */
  lemma {:induction false} BoundedClosing(m: int, acts: seq<Action>, more: seq<Action>)
    requires Run(m, acts + more).Some? && Run(m, acts).Some? && Run(m, acts).value.closed
    ensures WindingIn(more) + Remaining(Run(m, acts + more).value) <= Remaining(Run(m, acts).value)
  {
    hide Remaining, Apply, Enabled;
    if more == [] {
      assert acts + more == acts;
    } else {
      var init, a := more[..|more| - 1], more[|more| - 1];
      assert acts + more == (acts + init) + [a];
      RunSnoc(m, acts + init, a);
      RunOn(m, acts, init);
      BoundedClosing(m, acts, init);
      if Winding(a) {
        WindingDown(m, acts + init, a);
      } else {
        NothingWindsUp(m, acts + init, a);
      }
    }
  }

  /** How many steps of a run are the closing goroutine's or a handler's. */
  function WindingIn(acts: seq<Action>): nat {
    if acts == [] then 0 else WindingIn(acts[..|acts| - 1]) + One(Winding(acts[|acts| - 1]))
  }

  lemma OtherStep(m: int, s: State, a: Action)
    requires Enabled(s, a) && s.closed && s.admitting == None && (s.closer.Shutting? ==> ShuttingOk(s))
    requires s.closer != NotStarted
    ensures Remaining(Apply(m, s, a)) <= Remaining(s)
  {
    if Winding(a) {
      WindingStep(m, s, a);
    } else {
      hide Sum;
      if a.Accept? {
        SumSnoc(Left, s.peers, Peer(Accepted, false, false));
      } else if a.Register? {
        SumPut(Left, s.peers, a.i, Apply(m, s, a).peers[a.i]);
      }
    }
  }

  lemma WindingStep(m: int, s: State, a: Action)
    requires Enabled(s, a) && Winding(a) && (s.closer.Shutting? ==> ShuttingOk(s))
    ensures Remaining(Apply(m, s, a)) < Remaining(s)
  {
    hide Sum, Chores;
    var i := Subject(s, a);
    if i >= 0 {
      SumPut(Left, s.peers, i, Apply(m, s, a).peers[i]);
    }
    FewerChores(s.closer);
  }

  lemma FewerChores(closer: Closer)
    ensures closer.Shutting? && closer.cancelled == None ==> forall i :: Chores(Shutting(closer.todo, Some(i))) < Chores(closer)
    ensures closer.Shutting? && closer.cancelled.Some? && closer.cancelled.value in closer.todo ==>
              Chores(Shutting(closer.todo - {closer.cancelled.value}, None)) < Chores(closer)
    ensures Chores(Shutting({}, None)) > Chores(Waiting) > Chores(Finished)
  {
  }

  /** And until it has ended there is one to take. */
  lemma NeverStuck(m: int, acts: seq<Action>) returns (a: Action)
    requires Run(m, acts).Some? && Run(m, acts).value.closed && Run(m, acts).value.closer != Finished
    ensures Winding(a) && Enabled(Run(m, acts).value, a)
  {
    RunInv(m, acts);
    var s := Run(m, acts).value;
    if s.closer.Shutting? && s.closer.cancelled.Some? {
      a := ShutOne;
    } else if s.closer.Shutting? && s.closer.todo != {} {
      var i :| i in s.closer.todo;
      a := CancelOne(i);
    } else if s.closer.Shutting? {
      a := WaitBegin;
    } else if s.wg == 0 {
      a := WaitEnd;
    } else {
      var i := SomeAlive(s.peers);
      a := if s.peers[i].phase == Running then Deregister(i) else if s.peers[i].phase == Leaving then HangUp(i) else Exit(i);
    }
  }

  lemma {:induction false} SomeAlive(ps: seq<Peer>) returns (i: nat)
    requires Sum(Alive, ps) > 0
    ensures i < |ps| && Alive(ps[i]) == 1
  {
    i := |ps| - 1;
    if Alive(ps[i]) == 0 {
      i := SomeAlive(ps[..i]);
    }
  }

  // ---- the object ----

  class Server {
    const maxConns: int
    var closed: bool
    var conns: set<nat>
    var wg: int
    var closer: Closer
    /** The connections ever accepted, by number, and how far their goroutines are. */
    var peers: seq<Peer>

    ghost var admitting: Option<nat>
    ghost var returned: nat
    ghost var trace: seq<Action>

    ghost function View(): State
      reads this
    {
      State(closed, conns, wg, peers, admitting, closer, returned)
    }

    ghost predicate Coupled()
      reads this
    {
      Run(maxConns, trace) == Some(View())
    }

    ghost predicate Valid()
      reads this
    {
      Coupled() && admitting == None
    }

    constructor (limit: int)
      ensures Valid() && View() == INIT && maxConns == if limit < 0 then 0 else limit
    {
      maxConns := if limit < 0 then 0 else limit;
      closed, conns, wg, closer, peers, admitting, returned, trace := false, {}, 0, NotStarted, [], None, 0, [];
    }

    /** The fields have just been changed as `a` says: note the step. */
    ghost method Did(a: Action, before: State)
      requires Run(maxConns, trace) == Some(before) && Enabled(before, a) && Apply(maxConns, before, a) == View()
      modifies this`trace
      ensures Coupled()
    {
      RunSnoc(maxConns, trace, a);
      trace := trace + [a];
    }

    /**
     Serve, from Accept's return to the next Accept (server.go:114-149).  `sent` is what the
     new connection gets written here: an error when there is no room for it.
     */
    method ServeOne(text: Bytes) returns (serving: bool, sent: Bytes)
      requires Valid()
      modifies this
      ensures Valid() && |peers| == |old(peers)| + 1 && peers[..|old(peers)|] == old(peers)
      ensures serving <==> !closed
      ensures var i := |old(peers)|;
              if closed || (maxConns > 0 && |old(conns)| >= maxConns)
              then peers[i] == Peer(TurnedAway, true, true) && conns == old(conns) && wg == old(wg)
              else peers[i] == Peer(Running, false, false) && conns == old(conns) + {i} && wg == old(wg) + 1
      ensures closed == old(closed) && closer == old(closer)
      ensures sent != [] ==> !closed && maxConns > 0 && |old(conns)| >= maxConns
      ensures !closed && maxConns > 0 && |old(conns)| >= maxConns && 6 + |text| <= MAX_PAYLOAD ==>
                NextFrame(sent) == (Ok(Frame(OP_ERROR, Encode(Failure(CODE_OVERLOADED, text)))), [])
    {
      hide Run;
      var i := |peers|;
      sent := [];
      ghost var s := View();
      peers := peers + [Peer(Accepted, false, false)];
      Did(Accept, s);
      ghost var t := View();
      if closed || (maxConns > 0 && |conns| >= maxConns) {
        peers := peers[i := Peer(TurnedAway, true, true)];
        Did(Register(i), t);
        if !closed {
          sent := Notice(Frame(OP_ERROR, Encode(Failure(CODE_OVERLOADED, text))));
        }
      } else {
        Admit(i);
      }
      serving := !closed;
    }

    /** Registered, counted and started in one section. */
    method Admit(i: nat)
      requires Valid() && i < |peers| && peers[i] == Peer(Accepted, false, false)
      requires !closed && !(maxConns > 0 && |conns| >= maxConns)
      modifies this
      ensures Valid()
      ensures View() == old(View()).(conns := old(conns) + {i}, wg := old(wg) + 1,
                                     peers := old(peers)[i := Peer(Running, false, false)])
    {
      hide Run;
      ghost var t := View();
      conns := conns + {i};
      peers, admitting := peers[i := Peer(Admitted, false, false)], Some(i);
      Did(Register(i), t);
      ghost var u := View();
      wg := wg + 1;
      peers, admitting := peers[i := Peer(Running, false, false)], None;
      Did(Start, u);
    }

    /** WriteFrame to the refused connection, its result ignored. */
    static method Notice(f: Frame) returns (sent: Bytes)
      ensures if Sendable(f) then NextFrame(sent) == (Ok(f), []) else sent == []
    {
      if |f.payload| > MAX_PAYLOAD {
        return [];
      }
      sent := EncodeFrame(f);
      NextFrameOn(f, []);
      assert EncodeFrame(f) + [] == EncodeFrame(f);
    }

    /** removeConn */
    method RemoveConn(i: nat)
      requires Valid() && i < |peers| && peers[i].phase == Running
      modifies this
      ensures Valid() && View() == Apply(maxConns, old(View()), Deregister(i))
    {
      hide Run;
      ghost var s := View();
      var listed := i in conns;
      if listed {
        conns := conns - {i};
      }
      peers := peers[i := Peer(Leaving, peers[i].cancelled || listed, peers[i].shut)];
      Did(Deregister(i), s);
    }

    /** The handler closes its socket; then its goroutine ends and is counted off. */
    method End(i: nat)
      requires Valid() && i < |peers| && (peers[i].phase == Leaving || peers[i].phase == HungUp)
      modifies this
      ensures Valid()
      ensures View() == Apply(maxConns, old(View()), if old(peers[i].phase) == Leaving then HangUp(i) else Exit(i))
    {
      hide Run;
      ghost var s := View();
      if peers[i].phase == Leaving {
        peers := peers[i := Peer(HungUp, peers[i].cancelled, true)];
        Did(HangUp(i), s);
      } else {
        peers := peers[i := Peer(Gone, peers[i].cancelled, peers[i].shut)];
        wg := wg - 1;
        Did(Exit(i), s);
      }
    }

    /** The first section of Close: no connection is registered from here on. */
    method BeginClose()
      requires Valid() && closer == NotStarted
      modifies this
      ensures Valid() && View() == Apply(maxConns, old(View()), CloseBegin)
    {
      hide Run;
      ghost var s := View();
      closed := true;
      closer := Shutting(conns, None);
      Did(CloseBegin, s);
    }

    /** `cancels[i]()`, then `conn.Close()`. */
    method Tell(i: nat)
      requires Valid() && closer.Shutting? && i < |peers|
      requires if closer.cancelled == None then i in closer.todo else closer.cancelled == Some(i)
      modifies this
      ensures Valid() && View() == Apply(maxConns, old(View()), if old(closer).cancelled == None then CancelOne(i) else ShutOne)
    {
      hide Run;
      ghost var s := View();
      if closer.cancelled == None {
        peers := peers[i := Peer(peers[i].phase, true, peers[i].shut)];
        closer := Shutting(closer.todo, Some(i));
        Did(CancelOne(i), s);
      } else {
        peers := peers[i := Peer(peers[i].phase, peers[i].cancelled, true)];
        closer := Shutting(closer.todo - {i}, None);
        Did(ShutOne, s);
      }
    }

    /** `wg.Wait()` begins, or ends and `closeDone` is closed. */
    method Wait()
      requires Valid() && (closer == Shutting({}, None) || (closer == Waiting && wg == 0))
      modifies this
      ensures Valid() && View() == Apply(maxConns, old(View()), if old(closer) == Waiting then WaitEnd else WaitBegin)
    {
      hide Run;
      ghost var s := View();
      if closer == Waiting {
        closer := Finished;
        Did(WaitEnd, s);
      } else {
        closer := Waiting;
        Did(WaitBegin, s);
      }
    }

    // ---- other goroutines ----

    /** What the steps of others leave alone: handler `i`, and the closing goroutine if that is us. */
    ghost predicate NotMine(s: State, i: int, closing: bool)
      reads this
    {
      |s.peers| <= |peers| && (0 <= i < |s.peers| ==> peers[i].phase == s.peers[i].phase) && (s.closed ==> closed)
      && (closing ==> closer == s.closer && forall j :: 0 <= j < |s.peers| ==>
                        (s.peers[j].cancelled ==> peers[j].cancelled) && (s.peers[j].shut ==> peers[j].shut))
    }

    method Somebody(i: int, closing: bool)
      requires Valid()
      modifies this
      ensures Valid() && NotMine(old(View()), i, closing)
    {
      hide Run;
      var what: int, j: int := *, *;
      if what == 0 {
        var serving, sent := ServeOne([]);
      } else if what == 1 && 0 <= j < |peers| && j != i {
        StepHandler(j);
      } else if !closing {
        StepClose(j);
      }
    }

    /** A handler takes a step. */
    method StepHandler(j: nat)
      requires Valid() && j < |peers|
      modifies this
      ensures Valid() && closed == old(closed) && closer == old(closer) && |peers| == |old(peers)|
      ensures peers == old(peers)[j := peers[j]]
      ensures (old(peers[j]).cancelled ==> peers[j].cancelled) && (old(peers[j]).shut ==> peers[j].shut)
    {
      hide Run;
      if peers[j].phase == Running {
        RemoveConn(j);
      } else if peers[j].phase == Leaving || peers[j].phase == HungUp {
        End(j);
      }
    }

    /** The goroutine that runs Close takes a step. */
    method StepClose(j: int)
      requires Valid()
      modifies this
      ensures Valid() && |peers| == |old(peers)| && (old(closed) ==> closed)
      ensures forall i :: 0 <= i < |peers| ==> peers[i].phase == old(peers[i].phase)
    {
      hide Run;
      RunInv(maxConns, trace);
      if closer == NotStarted {
        BeginClose();
      } else if closer.Shutting? && closer.cancelled.Some? {
        Tell(closer.cancelled.value);
      } else if closer.Shutting? && j in closer.todo {
        Tell(j);
      } else if closer == Shutting({}, None) || (closer == Waiting && wg == 0) {
        Wait();
      }
    }

    /** Whatever others do while a call is outside the mutex, if they do anything (`busy`). */
    method Others(i: int, closing: bool, busy: bool)
      requires Valid()
      modifies this
      ensures Valid() && NotMine(old(View()), i, closing) && (!busy ==> View() == old(View()))
    {
      hide Run;
      var rounds: int := *;
      while busy && rounds > 0
        invariant Valid() && NotMine(old(View()), i, closing) && (!busy ==> View() == old(View()))
        decreases rounds
      {
        Somebody(i, closing);
        rounds := rounds - 1;
      }
    }

    // ---- the methods ----

    /** Since `s` these connections have been cancelled and closed, and nothing else has happened to any of them. */
    ghost predicate ClosedAll(s: State, told: set<nat>)
      reads this
    {
      conns == s.conns && |peers| == |s.peers|
      && forall j :: 0 <= j < |peers| ==> peers[j] == if j in told then Peer(s.peers[j].phase, true, true) else s.peers[j]
    }

    /** The deferred calls of handleConn in the order they run, and `wg.Done`. */
    method LeaveConn(i: nat, busy: bool)
      requires Valid() && i < |peers| && peers[i].phase == Running
      modifies this
      ensures Valid() && |old(peers)| <= |peers| && peers[i] == Peer(Gone, true, true) && i !in conns
      ensures !busy ==>
                peers == old(peers)[i := Peer(Gone, true, true)] && conns == old(conns) - {i} && wg == old(wg) - 1
                && closed == old(closed) && closer == old(closer)
    {
      hide Run;
      RemoveConn(i);
      Others(i, false, busy);
      End(i);
      Others(i, false, busy);
      End(i);
      NobodyLeftBehind(maxConns, trace, i);
    }

    /**
     Close; false when we stop watching before it returns.  Any call may be the one that
     does the work, the others only wait for it.
     */
    method Close(busy: bool) returns (done: bool)
      requires Valid()
      modifies this
      ensures Valid() && closed && (done <==> closer == Finished)
      ensures done ==> conns == {} && wg == 0 && forall i :: 0 <= i < |peers| ==> Alive(peers[i]) == 0
      ensures !busy && !old(closed) ==>
                wg == old(wg) && (done <==> wg == 0) && ClosedAll(old(View()), old(conns))
    {
      hide Run, Sum;
      RunInv(maxConns, trace);
      if closer == NotStarted {
        TellAll(busy);
      }
      Others(-1, false, busy);
      if closer == Waiting && wg == 0 {
        Wait();
      }
      Others(-1, false, busy);
      done := closer == Finished;
      if done {
        Return();
      }
    }

    /** The body of `closeOnce.Do` up to the wait. */
    method TellAll(busy: bool)
      requires Valid() && closer == NotStarted
      modifies this
      ensures Valid() && closed && closer == Waiting
      ensures !busy ==> wg == old(wg) && ClosedAll(old(View()), old(conns))
    {
      hide Run, Sum;
      BeginClose();
      Others(-1, true, busy);
      CloseAll(busy);
      Others(-1, true, busy);
      Wait();
    }

    method Return()
      requires Valid() && closer == Finished
      modifies this`returned, this`trace
      ensures Valid() && closed && conns == {} && wg == 0 && forall i :: 0 <= i < |peers| ==> Alive(peers[i]) == 0
    {
      hide Run, Sum;
      ghost var s := View();
      returned := returned + 1;
      Did(CloseReturn, s);
      RunInv(maxConns, trace);
      assert trace + [] == trace;
      QuietOnceClosed(maxConns, trace, []);
    }

    /** The loop of Close over the connections it collected. */
    method CloseAll(busy: bool)
      requires Valid() && closer.Shutting? && closer.cancelled == None
      modifies this
      ensures Valid() && closer == Shutting({}, None) && |old(peers)| <= |peers| && (old(closed) ==> closed)
      ensures !busy ==> wg == old(wg) && ClosedAll(old(View()), old(closer).todo)
      ensures forall i :: i in old(closer).todo ==> i < |peers| && peers[i].cancelled && peers[i].shut
    {
      hide Run;
      ghost var all := closer.todo;
      RunInv(maxConns, trace);
      while closer.todo != {}
        invariant Valid() && closer.Shutting? && closer.cancelled == None && closer.todo <= all && |old(peers)| <= |peers|
        invariant (old(closed) ==> closed) && (!busy ==> wg == old(wg) && ClosedAll(old(View()), all - closer.todo))
        invariant forall i :: i in all ==> i < |peers| && (i in closer.todo || (peers[i].cancelled && peers[i].shut))
        decreases closer.todo
      {
        var i :| i in closer.todo;
        TellOne(i, busy);
      }
    }

    method TellOne(i: nat, busy: bool)
      requires Valid() && closer.Shutting? && closer.cancelled == None && i in closer.todo && i < |peers|
      modifies this
      ensures Valid() && closer == Shutting(old(closer).todo - {i}, None) && |old(peers)| <= |peers| && (old(closed) ==> closed)
      ensures forall j :: 0 <= j < |old(peers)| ==>
                (old(peers[j]).cancelled ==> peers[j].cancelled) && (old(peers[j]).shut ==> peers[j].shut)
      ensures peers[i].cancelled && peers[i].shut
      ensures !busy ==> wg == old(wg) && conns == old(conns) && peers == old(peers)[i := Peer(old(peers[i]).phase, true, true)]
    {
      hide Run, Sum;
      Tell(i);
      Others(-1, true, busy);
      Tell(i);
      Others(-1, true, busy);
    }
  }
}
