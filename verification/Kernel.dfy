/**
 One partition and everybody who works on it at once (broker/partition.go and
 broker/subscription.go), as a step system.

 The lock has an owner.  A publisher appends one message per step and signals one
 subscriber per step while it owns the lock.  A reader owns the lock only for its
 check of the log; it parks outside, and takes the token out of its `ready`
 channel without the lock, so also in the middle of a publisher's signal loop.
 Unsubscribing and closing take the two actions `delete` and `close(done)` as
 separate steps, in the order of the code.  Contexts may be cancelled at any time.
 */
module Kernel {
  import opened Words
  import opened Store

  /** Where a subscription's single reader is inside `Read`. */
  datatype Pc = Idle | Want(max: int) | Inside(max: int) | Parked(max: int)

  /**
   A subscription: cursor, one-slot `ready` channel, `done` channel (true: closed),
   reader, how often the current Read entered its critical section, and every batch
   Read has returned.
   */
  datatype Sub = Sub(offset: nat, ready: bool, done: bool, pc: Pc, entries: nat, batches: seq<seq<Msg>>)

  /** Who owns the partition lock, and how far that critical section has come. */
  datatype Lock =
    | Free
    | Appending(base: nat, payloads: seq<Bytes>, k: nat)
    | Signalling(base: nat, payloads: seq<Bytes>, todo: set<nat>)
    | Reading(sub: nat)
    | Dropping(sub: nat)
    | Closing(todo: set<nat>, shut: Option<nat>)

  datatype Outcome = Rejected | Failed(kept: nat) | Published(base: nat)

  /** A Publish or PublishBatch call that has returned. */
  datatype Call = Call(payloads: seq<Bytes>, outcome: Outcome)

  datatype State = State(log: seq<Msg>, closed: bool, live: set<nat>, subs: seq<Sub>, lock: Lock,
                         calls: seq<Call>, panicked: bool)

  datatype ReadMove = StartRead(max: int) | Enter | Check | Wake | WakeDone | Cancel

  datatype Action =
    | Begin(payloads: seq<Bytes>)
    | AppendOk
    | AppendFail
    | Signal(sub: nat)
    | EndPublish
    | Subscribe
    | Read(sub: nat, move: ReadMove)
    | DropBegin(sub: nat)
    | DropEnd
    | CloseBegin
    | CloseOne(sub: nat)
    | CloseDelete
    | CloseEnd

  /** May the store refuse an append in the middle of a batch?  `memoryLog` never refuses any. */
  type Policy = bool

  const INIT := State([], false, {}, [], Free, [], false)

  predicate CanRead(s: State, i: nat, move: ReadMove)
    requires i < |s.subs|
  {
    var pc := s.subs[i].pc;
    match move
    case StartRead(_) => pc.Idle?
    case Enter => pc.Want? && s.lock == Free
    case Check => pc.Inside? && s.lock == Reading(i)
    case Wake => pc.Parked? && s.subs[i].ready
    case WakeDone => pc.Parked? && s.subs[i].done
    case Cancel => pc.Parked?
  }

  predicate Enabled(midBatch: Policy, s: State, a: Action) {
    match a
    case Begin(_) => s.lock == Free
    case AppendOk => s.lock.Appending? && s.lock.k < |s.lock.payloads| && |s.log| < MAX_INT64
    case AppendFail => s.lock.Appending? && (s.lock.k == 0 || midBatch)
    case Signal(i) => s.lock.Signalling? && i in s.lock.todo && i < |s.subs|
    case EndPublish => s.lock.Signalling? && s.lock.todo == {}
    case Subscribe => s.lock == Free
    case Read(i, move) => i < |s.subs| && CanRead(s, i, move)
    case DropBegin(i) => s.lock == Free && i < |s.subs|
    case DropEnd => s.lock.Dropping? && s.lock.sub < |s.subs|
    case CloseBegin => s.lock == Free
    case CloseOne(i) => s.lock.Closing? && s.lock.shut == None && i in s.lock.todo && i < |s.subs|
    case CloseDelete => s.lock.Closing? && s.lock.shut != None
    case CloseEnd => s.lock.Closing? && s.lock.todo == {} && s.lock.shut == None
  }

  /** The reader's side of a move; the shared part it changes is the lock. */
  function Moved(s: State, i: nat, move: ReadMove): Sub
    requires i < |s.subs| && CanRead(s, i, move)
  {
    var u := s.subs[i];
    match move
    case StartRead(max) => u.(pc := Want(if max <= 0 then 1 else max), entries := 0)
    case Enter => u.(pc := Inside(u.pc.max), entries := u.entries + 1)
    case Check =>
      if u.done || s.closed then u.(pc := Idle)
      else
        var msgs := Window(s.log, u.offset, u.pc.max);
        if msgs == [] then u.(pc := Parked(u.pc.max))
        else
          var next := msgs[|msgs| - 1].offset as int + 1;
          u.(pc := Idle, offset := if next < 0 then 0 else next, batches := u.batches + [msgs])
    case Wake => u.(pc := Want(u.pc.max), ready := false)
    case WakeDone => u.(pc := Idle)
    case Cancel => u.(pc := Idle)
  }

  /** `close(done)`: closing it a second time panics. */
  function Shut(s: State, i: nat): State
    requires i < |s.subs|
  {
    s.(subs := s.subs[i := s.subs[i].(done := true)], panicked := s.panicked || s.subs[i].done)
  }

  function Apply(midBatch: Policy, s: State, a: Action): State
    requires Enabled(midBatch, s, a)
  {
    match a
    case Begin(payloads) =>
      if s.closed then s.(calls := s.calls + [Call(payloads, Rejected)])
      else if payloads == [] then s.(calls := s.calls + [Call(payloads, Published(0))])
      else s.(lock := Appending(0, payloads, 0))
    case AppendOk =>
      var (ps, k) := (s.lock.payloads, s.lock.k);
      var base := if k == 0 then |s.log| else s.lock.base;
      s.(log := s.log + [Msg(|s.log| as int64, ps[k])],
         lock := if k + 1 < |ps| then Appending(base, ps, k + 1) else Signalling(base, ps, s.live))
    case AppendFail =>
      s.(lock := Free, calls := s.calls + [Call(s.lock.payloads, Failed(s.lock.k))])
    case Signal(i) =>
      s.(subs := s.subs[i := s.subs[i].(ready := true)], lock := Signalling(s.lock.base, s.lock.payloads, s.lock.todo - {i}))
    case EndPublish =>
      s.(lock := Free, calls := s.calls + [Call(s.lock.payloads, Published(s.lock.base))])
    case Subscribe =>
      if s.closed then s
      else s.(subs := s.subs + [Sub(0, false, false, Idle, 0, [])], live := s.live + {|s.subs|})
    case Read(i, move) =>
      s.(subs := s.subs[i := Moved(s, i, move)],
         lock := if move == Enter then Reading(i) else if move == Check then Free else s.lock)
    case DropBegin(i) => if i in s.live then s.(live := s.live - {i}, lock := Dropping(i)) else s
    case DropEnd => Shut(s, s.lock.sub).(lock := Free)
    case CloseBegin => if s.closed then s else s.(closed := true, lock := Closing(s.live, None))
    case CloseOne(i) => Shut(s, i).(lock := Closing(s.lock.todo, Some(i)))
    case CloseDelete =>
      var i := s.lock.shut.value;
      s.(live := s.live - {i}, lock := Closing(s.lock.todo - {i}, None))
    case CloseEnd => s.(lock := Free)
  }

  /** The state a sequence of steps leads to, or None when one of them cannot be taken. */
  function Run(midBatch: Policy, acts: seq<Action>): Option<State> {
    if acts == [] then Some(INIT)
    else
      match Run(midBatch, acts[..|acts| - 1])
      case None => None
      case Some(s) =>
        var a := acts[|acts| - 1];
        if Enabled(midBatch, s, a) then Some(Apply(midBatch, s, a)) else None
  }

  // ---- the invariant ----

  /** Messages appended by a publisher that has not reached its signal loop yet. */
  function Unannounced(s: State): nat {
    if s.lock.Appending? then s.lock.k else 0
  }

  /** The lock holder will still signal `i` for what it appended. */
  predicate Pending(s: State, i: nat) {
    s.lock.Signalling? && i in s.lock.todo
  }

  ghost predicate Cursor(s: State, u: Sub) {
    u.offset <= |s.log| && Flatten(u.batches) == s.log[..u.offset]
  }

  /** A parked reader that is behind has its token, or will get it from the lock holder. */
  ghost predicate Awake(s: State, i: nat)
    requires i < |s.subs|
  {
    var u := s.subs[i];
    u.pc.Parked? && !u.done ==> u.offset + Unannounced(s) >= |s.log| || u.ready || Pending(s, i)
  }

  /**
   Only one stale token can exist.  A reader that has seen the end of the log once and
   taken that token has none left, so its next token means a new message.
   */
  ghost predicate Bounded(s: State, i: nat)
    requires i < |s.subs|
  {
    var u := s.subs[i];
    (s.lock.Signalling? && (u.pc.Parked? || (u.pc.Want? && u.entries > 0)) ==> u.offset < |s.log|)
    && match u.pc {
      case Idle => u.entries <= 3
      case Want(max) => max > 0 && u.entries <= 2
        && (u.entries == 1 && u.offset == |s.log| ==> !u.ready) && (u.entries == 2 ==> u.offset < |s.log|)
      case Inside(max) => max > 0 && 1 <= u.entries <= 3
        && (u.entries == 2 && u.offset == |s.log| ==> !u.ready) && (u.entries == 3 ==> u.offset < |s.log|)
      case Parked(max) => max > 0 && 1 <= u.entries <= 2 && (u.entries == 2 && u.offset == |s.log| ==> !u.ready)
    }
  }

  /** A subscription is in the set exactly while `done` is open, but for the one being taken out right now. */
  ghost predicate Listed(s: State, i: nat)
    requires i < |s.subs|
  {
    if s.lock == Dropping(i) then i !in s.live && !s.subs[i].done
    else if s.lock.Closing? && s.lock.shut == Some(i) then i in s.live && s.subs[i].done
    else i in s.live <==> !s.subs[i].done
  }

  ghost predicate SubOk(midBatch: Policy, s: State, i: nat)
    requires i < |s.subs|
  {
    Cursor(s, s.subs[i]) && Bounded(s, i) && Listed(s, i) && (!midBatch ==> Awake(s, i))
    && (s.subs[i].pc.Inside? <==> s.lock == Reading(i))
  }

  ghost predicate LockOk(s: State) {
    (forall i :: i in s.live ==> i < |s.subs|)
    && (s.closed && !s.lock.Closing? ==> s.live == {})
    && match s.lock {
      case Appending(base, ps, k) => !s.closed && k < |ps| && (k > 0 ==> base == |Total(s.calls)|)
      case Signalling(base, ps, todo) => !s.closed && ps != [] && todo <= s.live && base == |Total(s.calls)|
      case Closing(todo, shut) => s.closed && s.live == todo && (shut.Some? ==> shut.value in todo)
      case Dropping(i) => !s.closed && i < |s.subs|
      case _ => true
    }
  }

  /** The payloads a returned call left in the log. */
  function Kept(c: Call): seq<Bytes> {
    match c.outcome
    case Rejected => []
    case Failed(k) => Take(c.payloads, k)
    case Published(_) => c.payloads
  }

  function Total(calls: seq<Call>): seq<Bytes> {
    if calls == [] then [] else Total(calls[..|calls| - 1]) + Kept(calls[|calls| - 1])
  }

  function InFlight(lock: Lock): seq<Bytes> {
    match lock
    case Appending(_, ps, k) => Take(ps, k)
    case Signalling(_, ps, _) => ps
    case _ => []
  }

  /** The base returned for a non-empty batch is where the batch starts in the log. */
  ghost predicate BaseOk(calls: seq<Call>, j: int)
    requires 0 <= j < |calls|
  {
    calls[j].outcome.Published? && calls[j].payloads != [] ==> calls[j].outcome.base == |Total(calls[..j])|
  }

  ghost predicate BasesOk(calls: seq<Call>) {
    forall j :: 0 <= j < |calls| ==> BaseOk(calls, j)
  }

  ghost predicate Conserved(s: State) {
    Payloads(s.log) == Total(s.calls) + InFlight(s.lock) && BasesOk(s.calls)
  }

  ghost predicate Inv(midBatch: Policy, s: State) {
    IsLog(s.log) && LockOk(s) && Conserved(s) && !s.panicked
    && forall i :: 0 <= i < |s.subs| ==> SubOk(midBatch, s, i)
  }

  // ---- every step keeps it ----

  lemma TotalSnoc(calls: seq<Call>, c: Call)
    ensures Total(calls + [c]) == Total(calls) + Kept(c)
  {
    assert (calls + [c])[..|calls|] == calls;
  }

  lemma BasesSnoc(calls: seq<Call>, c: Call)
    requires BasesOk(calls)
    requires c.outcome.Published? && c.payloads != [] ==> c.outcome.base == |Total(calls)|
    ensures BasesOk(calls + [c])
  {
    var all := calls + [c];
    forall j | 0 <= j < |all| ensures BaseOk(all, j) {
      assert all[..j] == calls[..j];
      if j < |calls| {
        assert BaseOk(calls, j);
      } else {
        assert calls[..j] == calls;
      }
    }
  }

  /** A call returns: what it kept moves from the lock holder to the finished calls. */
  lemma ConservedReturn(s: State, c: Call)
    requires Conserved(s) && InFlight(s.lock) == Kept(c)
    requires c.outcome.Published? && c.payloads != [] ==> c.outcome.base == |Total(s.calls)|
    ensures Conserved(s.(lock := Free, calls := s.calls + [c]))
  {
    TotalSnoc(s.calls, c);
    BasesSnoc(s.calls, c);
  }

  lemma ConservedAppend(s: State, lock: Lock)
    requires Conserved(s) && s.lock.Appending? && s.lock.k < |s.lock.payloads| && |s.log| < MAX_INT64
    requires InFlight(lock) == Take(s.lock.payloads, s.lock.k + 1)
    ensures Conserved(s.(lock := lock, log := s.log + [Msg(|s.log| as int64, s.lock.payloads[s.lock.k])]))
  {
    var (ps, k) := (s.lock.payloads, s.lock.k);
    assert Payloads(s.log + [Msg(|s.log| as int64, ps[k])]) == Payloads(s.log) + [ps[k]];
    assert Take(ps, k + 1) == Take(ps, k) + [ps[k]];
  }

  /** Steps that neither append nor return leave the log, the calls and what is in flight alone. */
  lemma QuietStep(m: Policy, s: State, a: Action)
    requires Enabled(m, s, a) && !a.Begin? && !a.AppendOk? && !a.AppendFail? && !a.EndPublish?
    ensures var s' := Apply(m, s, a); s'.log == s.log && s'.calls == s.calls && InFlight(s'.lock) == InFlight(s.lock)
  {
  }

  /** Beginning a call either returns at once, keeping nothing, or takes the lock with nothing in flight. */
  lemma ConservedBegin(m: Policy, s: State, payloads: seq<Bytes>)
    requires Conserved(s) && s.lock == Free
    ensures Conserved(Apply(m, s, Begin(payloads)))
  {
    if s.closed {
      ConservedReturn(s, Call(payloads, Rejected));
    } else if payloads == [] {
      ConservedReturn(s, Call(payloads, Published(0)));
    }
  }

  lemma ConservedStep(m: Policy, s: State, a: Action)
    requires LockOk(s) && Conserved(s) && Enabled(m, s, a)
    ensures Conserved(Apply(m, s, a))
  {
    hide Conserved, Total, Take;
    if a.Begin? {
      ConservedBegin(m, s, a.payloads);
    } else if a.AppendOk? {
      ConservedAppend(s, Apply(m, s, a).lock);
    } else if a.AppendFail? {
      ConservedReturn(s, Call(s.lock.payloads, Failed(s.lock.k)));
    } else if a.EndPublish? {
      ConservedReturn(s, Call(s.lock.payloads, Published(s.lock.base)));
    } else {
      QuietStep(m, s, a);
      ConservedSame(s, Apply(m, s, a));
    }
  }

  lemma ConservedSame(s: State, s': State)
    requires Conserved(s) && s'.log == s.log && s'.calls == s.calls && InFlight(s'.lock) == InFlight(s.lock)
    ensures Conserved(s')
  {
  }

  lemma LockStep(m: Policy, s: State, a: Action)
    requires Inv(m, s) && Enabled(m, s, a)
    ensures LockOk(Apply(m, s, a)) && IsLog(Apply(m, s, a).log) && !Apply(m, s, a).panicked
  {
    if a.AppendOk? {
      assert |Payloads(s.log)| == |s.log|;
    }
    if a.CloseOne? || a.DropEnd? {
      var i := if a.CloseOne? then a.sub else s.lock.sub;
      assert SubOk(m, s, i);
    }
  }

  /** A delivering check: the batch returned is the next stretch of the log. */
  lemma Deliver(s: State, u: Sub, max: int)
    requires IsLog(s.log) && Cursor(s, u) && max > 0 && u.offset < |s.log|
    ensures var w := Window(s.log, u.offset, max);
            w != [] && w[|w| - 1].offset as int + 1 == u.offset + |w| <= |s.log|
            && Flatten(u.batches + [w]) == s.log[..u.offset + |w|]
  {
    WindowContinues(s.log, u.offset, max);
    FlattenSnoc(u.batches, Window(s.log, u.offset, max));
  }

  lemma CursorMove(s: State, i: nat, move: ReadMove)
    requires IsLog(s.log) && i < |s.subs| && CanRead(s, i, move) && Cursor(s, s.subs[i])
    requires s.subs[i].pc.Inside? ==> s.subs[i].pc.max > 0
    ensures Cursor(s, Moved(s, i, move))
  {
    var u := s.subs[i];
    if move.Check? && u.offset < |s.log| {
      Deliver(s, u, u.pc.max);
    } else {
      assert Moved(s, i, move).offset == u.offset && Moved(s, i, move).batches == u.batches;
    }
  }

  lemma CursorStep(m: Policy, s: State, a: Action, i: nat)
    requires IsLog(s.log) && Enabled(m, s, a) && i < |s.subs| && Cursor(s, s.subs[i])
    requires s.subs[i].pc.Inside? ==> s.subs[i].pc.max > 0
    ensures Cursor(Apply(m, s, a), Apply(m, s, a).subs[i])
  {
    var u, s' := s.subs[i], Apply(m, s, a);
    if a.Read? {
      if a.sub == i {
        CursorMove(s, i, a.move);
      }
    } else {
      assert s'.subs[i].offset == u.offset && s'.subs[i].batches == u.batches;
      assert s.log <= s'.log;
      assert s'.log[..u.offset] == s.log[..u.offset];
    }
  }

  lemma BoundedMove(m: Policy, s: State, i: nat, move: ReadMove)
    requires LockOk(s) && i < |s.subs| && CanRead(s, i, move) && SubOk(m, s, i)
    ensures Bounded(Apply(m, s, Read(i, move)), i)
  {
    hide Listed, Awake;
  }

  lemma BoundedRest(m: Policy, s: State, a: Action, i: nat)
    requires LockOk(s) && Enabled(m, s, a) && i < |s.subs| && SubOk(m, s, i) && !(a.Read? && a.sub == i)
    ensures Bounded(Apply(m, s, a), i)
  {
    hide Listed, Awake, Moved;
  }

  lemma BoundedStep(m: Policy, s: State, a: Action, i: nat)
    requires LockOk(s) && Enabled(m, s, a) && i < |s.subs| && SubOk(m, s, i)
    ensures Bounded(Apply(m, s, a), i)
  {
    hide LockOk, SubOk, Bounded, Apply;
    if a.Read? && a.sub == i {
      BoundedMove(m, s, i, a.move);
    } else {
      BoundedRest(m, s, a, i);
    }
  }

  lemma ListedStep(m: Policy, s: State, a: Action, i: nat)
    requires LockOk(s) && Enabled(m, s, a) && i < |s.subs| && SubOk(m, s, i)
    ensures Listed(Apply(m, s, a), i)
  {
  }

  lemma AwakeStep(s: State, a: Action, i: nat)
    requires LockOk(s) && Enabled(false, s, a) && i < |s.subs| && SubOk(false, s, i)
    ensures Awake(Apply(false, s, a), i)
  {
  }

  lemma InsideMove(m: Policy, s: State, i: nat, move: ReadMove)
    requires i < |s.subs| && CanRead(s, i, move) && SubOk(m, s, i)
    ensures Apply(m, s, Read(i, move)).subs[i].pc.Inside? <==> Apply(m, s, Read(i, move)).lock == Reading(i)
  {
    hide Cursor, Bounded, Listed, Awake, Window;
  }

  lemma InsideRest(m: Policy, s: State, a: Action, i: nat)
    requires Enabled(m, s, a) && i < |s.subs| && SubOk(m, s, i) && !(a.Read? && a.sub == i)
    ensures Apply(m, s, a).subs[i].pc.Inside? <==> Apply(m, s, a).lock == Reading(i)
  {
    hide Cursor, Bounded, Listed, Awake, Moved;
  }

  /** A reader is in its critical section exactly while it owns the lock. */
  lemma InsideStep(m: Policy, s: State, a: Action, i: nat)
    requires Enabled(m, s, a) && i < |s.subs| && SubOk(m, s, i)
    ensures Apply(m, s, a).subs[i].pc.Inside? <==> Apply(m, s, a).lock == Reading(i)
  {
    hide SubOk, Apply;
    if a.Read? && a.sub == i {
      InsideMove(m, s, i, a.move);
    } else {
      InsideRest(m, s, a, i);
    }
  }

  /** A new subscription starts out in order. */
  lemma NewSub(m: Policy, s: State, a: Action, i: nat)
    requires Inv(m, s) && Enabled(m, s, a) && |s.subs| <= i < |Apply(m, s, a).subs|
    ensures SubOk(m, Apply(m, s, a), i)
  {
    hide SubOk, Conserved;
    assert i == |s.subs| && a == Subscribe && !s.closed;
    FreshSub(m, s);
  }

  lemma FreshSub(m: Policy, s: State)
    requires LockOk(s) && !s.closed && s.lock == Free
    ensures SubOk(m, Apply(m, s, Subscribe), |s.subs|)
  {
  }

  lemma SubStep(m: Policy, s: State, a: Action, i: nat)
    requires Inv(m, s) && Enabled(m, s, a) && i < |Apply(m, s, a).subs|
    ensures SubOk(m, Apply(m, s, a), i)
  {
    hide Apply, Cursor, Bounded, Listed, Awake, Conserved;
    if i < |s.subs| {
      assert SubOk(m, s, i);
      MaxPositive(m, s, i);
      CursorStep(m, s, a, i);
      BoundedStep(m, s, a, i);
      ListedStep(m, s, a, i);
      InsideStep(m, s, a, i);
      if !m {
        AwakeStep(s, a, i);
      }
    } else {
      NewSub(m, s, a, i);
    }
  }

  lemma MaxPositive(m: Policy, s: State, i: nat)
    requires i < |s.subs| && SubOk(m, s, i)
    ensures s.subs[i].pc.Inside? ==> s.subs[i].pc.max > 0
  {
  }

  /** The invariant holds in every state of every interleaving. */
  lemma {:induction false} RunInv(m: Policy, acts: seq<Action>)
    ensures Run(m, acts).Some? ==> Inv(m, Run(m, acts).value)
  {
    if acts != [] && Run(m, acts).Some? {
      var s, a := Run(m, acts[..|acts| - 1]).value, acts[|acts| - 1];
      RunInv(m, acts[..|acts| - 1]);
      ConservedStep(m, s, a);
      LockStep(m, s, a);
      forall i | 0 <= i < |Apply(m, s, a).subs| ensures SubOk(m, Apply(m, s, a), i) {
        SubStep(m, s, a, i);
      }
    }
  }
}
