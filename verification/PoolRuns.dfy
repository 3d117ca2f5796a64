/**
 The header pool under concurrency: any number of WriteMessageBatch calls, each
 taking its own steps (get a header, fill it, send, put it back) in any
 interleaving, while the runtime may drop idle headers at any time.
 */
module PoolRuns {
  import opened Words
  import opened Frames
  import opened HeaderPool
  import opened Store
  import opened Writers

  datatype Outcome = Delivered | Refused | Broken

  datatype Phase =
    | Filling
    | Sending(next: nat)
    | Releasing(from: nat, outcome: Outcome)

  /** One call: its arguments, the headers it took (by identity), how many are filled, and what it sent. */
  datatype Call = Call(ms: seq<Msg>, hdrs: seq<nat>, filled: nat, phase: Phase, sent: Bytes) {
    /** The headers before this index have been put back. */
    function From(): nat {
      if phase.Releasing? then phase.from else 0
    }
  }

  /**
   `mem[h]` is what header `h` holds now; a new header is the next index.  `user[h]`
   is bookkeeping of the proof: the call and message `h` was last taken for.
   */
  datatype State = State(idle: set<nat>, mem: seq<Bytes>, user: seq<(nat, nat)>, calls: seq<Call>)

  /** What one call can do next. */
  datatype Move =
    | TakeIdle(h: nat)
    | TakeNew(junk: Bytes)
    | FillNext
    | Refuse
    | Launch
    | SendNext
    | Fail(n: nat)
    | Finish
    | PutBack(keep: bool)

  datatype Action = Begin(ms: seq<Msg>) | By(t: nat, move: Move) | Collect(h: nat)

  function HeadOf(m: Msg): Bytes {
    Head(m.offset, |m.payload|)
  }

  predicate NeedsHeader(c: Call) {
    c.phase.Filling? && c.filled == |c.hdrs| < |c.ms|
  }

  predicate NextFits(c: Call) {
    NeedsHeader(c) && |c.ms[c.filled].payload| <= MAX_MESSAGE
  }

  predicate Allowed(s: State, c: Call, move: Move) {
    match move
    case TakeIdle(h) => NextFits(c) && h in s.idle && h < |s.user|
    case TakeNew(_) => NextFits(c)
    case FillNext => c.phase.Filling? && c.filled < |c.hdrs| <= |c.ms| && c.hdrs[c.filled] < |s.mem|
    case Refuse => NeedsHeader(c) && !NextFits(c)
    case Launch => c.phase.Filling? && c.filled == |c.hdrs| == |c.ms|
    case SendNext => c.phase.Sending? && c.phase.next < |c.ms| == |c.hdrs| && c.hdrs[c.phase.next] < |s.mem|
    case Fail(_) => c.phase.Sending? && c.phase.next < |c.ms| == |c.hdrs| && c.hdrs[c.phase.next] < |s.mem|
    case Finish => c.phase.Sending? && c.phase.next == |c.ms|
    case PutBack(_) => c.phase.Releasing? && c.phase.from < |c.hdrs|
  }

  predicate Enabled(s: State, a: Action) {
    match a
    case Begin(_) => true
    case Collect(h) => h in s.idle
    case By(t, move) => t < |s.calls| && Allowed(s, s.calls[t], move)
  }

  /** The call after its move. */
  function Moved(s: State, c: Call, move: Move): Call
    requires Allowed(s, c, move)
  {
    match move
    case TakeIdle(h) => c.(hdrs := c.hdrs + [h])
    case TakeNew(_) => c.(hdrs := c.hdrs + [|s.mem|])
    case FillNext => c.(filled := c.filled + 1)
    case Refuse => c.(phase := Releasing(0, Refused))
    case Launch => c.(phase := Sending(0))
    case SendNext =>
      var k := c.phase.next;
      c.(phase := Sending(k + 1), sent := c.sent + (s.mem[c.hdrs[k]] + c.ms[k].payload))
    case Fail(n) =>
      var k := c.phase.next;
      c.(phase := Releasing(0, Broken), sent := c.sent + Take(s.mem[c.hdrs[k]] + c.ms[k].payload, n))
    case Finish => c.(phase := Releasing(0, Delivered))
    case PutBack(_) => c.(phase := c.phase.(from := c.phase.from + 1))
  }

  function Apply(s: State, a: Action): State
    requires Enabled(s, a)
  {
    match a
    case Begin(ms) => s.(calls := s.calls + [Call(ms, [], 0, Filling, [])])
    case Collect(h) => s.(idle := s.idle - {h})
    case By(t, move) =>
      var c := s.calls[t];
      var s' := s.(calls := s.calls[t := Moved(s, c, move)]);
      match move
      case TakeIdle(h) => s'.(idle := s.idle - {h}, user := s.user[h := (t, |c.hdrs|)])
      case TakeNew(junk) => s'.(mem := s.mem + [junk], user := s.user + [(t, |c.hdrs|)])
      case FillNext => s'.(mem := s.mem[c.hdrs[c.filled] := HeadOf(c.ms[c.filled])])
      case PutBack(keep) => if keep then s'.(idle := s.idle + {c.hdrs[c.phase.from]}) else s'
      case _ => s'
  }

  /** The state after a run, or None when some step could not be taken. */
  function Run(acts: seq<Action>): Option<State> {
    if acts == [] then Some(State({}, [], [], []))
    else
      match Run(acts[..|acts| - 1])
      case None => None
      case Some(s) => if Enabled(s, acts[|acts| - 1]) then Some(Apply(s, acts[|acts| - 1])) else None
  }

  // ---- the invariant ----

  predicate InUse(s: State, t: int, i: int) {
    0 <= t < |s.calls| && s.calls[t].From() <= i < |s.calls[t].hdrs|
  }

  /** A header in use exists, is not in the pool, and is used by one call for one message only. */
  ghost predicate Exclusive(s: State) {
    |s.user| == |s.mem| && (forall h :: h in s.idle ==> h < |s.mem|)
    && (forall t, i :: InUse(s, t, i) ==> Owned(s, t, i))
  }

  predicate Owned(s: State, t: int, i: int)
    requires InUse(s, t, i) && |s.user| == |s.mem|
  {
    var h := s.calls[t].hdrs[i];
    h < |s.mem| && h !in s.idle && s.user[h] == (t, i)
  }

  /** Header and payload of the first `k` messages, as the vectored write sends them. */
  function Done(ms: seq<Msg>, k: nat): Bytes
    requires k <= |ms|
  {
    if k == 0 then [] else Done(ms, k - 1) + (HeadOf(ms[k - 1]) + ms[k - 1].payload)
  }

  lemma {:induction false} DoneIsFrames(ms: seq<Msg>, k: nat)
    requires k <= |ms|
    ensures Done(ms, k) == PushAll(ms[..k])
  {
    if k > 0 {
      DoneIsFrames(ms, k - 1);
      PushSnoc(ms, k - 1);
      PushIsHeadAndPayload(ms[k - 1]);
    }
  }

  /** What a call sends grows message by message and ends up being all of its frames. */
  ghost predicate Shaped(c: Call) {
    c.filled <= |c.hdrs| <= |c.ms| && |c.hdrs| <= c.filled + 1
    && (forall i :: 0 <= i < |c.hdrs| ==> |c.ms[i].payload| <= MAX_MESSAGE)
    && match c.phase {
      case Filling => c.sent == []
      case Sending(k) => c.filled == |c.hdrs| == |c.ms| && k <= |c.ms| && c.sent == Done(c.ms, k)
      case Releasing(k, o) => c.filled == |c.hdrs| && k <= |c.hdrs|
        && match o {
          case Delivered => c.sent == Done(c.ms, |c.ms|) && |c.hdrs| == |c.ms|
          case Refused => c.sent == [] && |c.hdrs| < |c.ms| && |c.ms[|c.hdrs|].payload| > MAX_MESSAGE
          case Broken => c.sent <= Done(c.ms, |c.ms|) && |c.hdrs| == |c.ms|
        }
    }
  }

  /** Every filled header still holds what it was filled with. */
  ghost predicate Intact(s: State)
    requires Exclusive(s)
  {
    forall t, i :: InUse(s, t, i) && i < s.calls[t].filled <= |s.calls[t].ms| ==> Holds(s, t, i)
  }

  ghost predicate Holds(s: State, t: int, i: int)
    requires Exclusive(s) && InUse(s, t, i) && i < |s.calls[t].ms|
  {
    s.mem[s.calls[t].hdrs[i]] == HeadOf(s.calls[t].ms[i])
  }

  ghost predicate AllShaped(s: State) {
    forall t :: 0 <= t < |s.calls| ==> Shaped(s.calls[t])
  }

  ghost predicate Inv(s: State) {
    Exclusive(s) && AllShaped(s) && Intact(s)
  }

  lemma ExclusiveStep(s: State, a: Action)
    requires Exclusive(s) && AllShaped(s) && Enabled(s, a)
    ensures Exclusive(Apply(s, a))
  {
    hide Shaped, HeadOf, Done, Owned;
    BoundsStep(s, a);
    var s' := Apply(s, a);
    forall t, i | InUse(s', t, i) ensures Owned(s', t, i) {
      if t < |s.calls| && i < |s.calls[t].hdrs| {
        StillOwned(s, a, t, i);
      } else {
        NewlyOwned(s, a, t, i);
      }
    }
  }

  lemma BoundsStep(s: State, a: Action)
    requires Exclusive(s) && Enabled(s, a)
    ensures |Apply(s, a).user| == |Apply(s, a).mem| && forall h :: h in Apply(s, a).idle ==> h < |Apply(s, a).mem|
  {
    hide Shaped, HeadOf, Done, Take;
    if a.By? && a.move.PutBack? {
      assert InUse(s, a.t, s.calls[a.t].phase.from) && Owned(s, a.t, s.calls[a.t].phase.from);
    }
  }

  /** A header already in use keeps its user. */
  lemma StillOwned(s: State, a: Action, t: int, i: int)
    requires Exclusive(s) && Enabled(s, a) && InUse(Apply(s, a), t, i) && t < |s.calls| && i < |s.calls[t].hdrs|
    requires |Apply(s, a).user| == |Apply(s, a).mem|
    ensures Owned(Apply(s, a), t, i)
  {
    hide Shaped, HeadOf, Done, Take;
    assert InUse(s, t, i) && Owned(s, t, i);
    if a.By? && a.move.PutBack? {
      assert InUse(s, a.t, s.calls[a.t].phase.from) && Owned(s, a.t, s.calls[a.t].phase.from);
    }
  }

  lemma NewlyOwned(s: State, a: Action, t: int, i: int)
    requires Exclusive(s) && Enabled(s, a) && InUse(Apply(s, a), t, i) && !(t < |s.calls| && i < |s.calls[t].hdrs|)
    requires |Apply(s, a).user| == |Apply(s, a).mem|
    ensures Owned(Apply(s, a), t, i)
  {
    hide Shaped, HeadOf, Done, Take;
  }

  lemma IntactStep(s: State, a: Action)
    requires Exclusive(s) && AllShaped(s) && Intact(s) && Enabled(s, a)
    requires Exclusive(Apply(s, a))
    ensures Intact(Apply(s, a))
  {
    hide Shaped, Done, HeadOf, Take;
    if a.By? && a.move.FillNext? {
      IntactFill(s, a.t);
    } else {
      var s' := Apply(s, a);
      forall t, i | InUse(s', t, i) && i < s'.calls[t].filled <= |s'.calls[t].ms| ensures Holds(s', t, i) {
        assert InUse(s, t, i) && Holds(s, t, i);
        assert s'.calls[t].hdrs[i] == s.calls[t].hdrs[i];
      }
    }
  }

  lemma IntactFill(s: State, u: nat)
    requires Exclusive(s) && AllShaped(s) && Intact(s) && Enabled(s, By(u, FillNext))
    requires Exclusive(Apply(s, By(u, FillNext)))
    ensures Intact(Apply(s, By(u, FillNext)))
  {
    hide Shaped, Done, Take;
    var s', k := Apply(s, By(u, FillNext)), s.calls[u].filled;
    assert InUse(s, u, k) && Owned(s, u, k);
    forall t, i | InUse(s', t, i) && i < s'.calls[t].filled <= |s'.calls[t].ms| ensures Holds(s', t, i) {
      assert InUse(s, t, i);
      if t != u || i != k {
        assert Holds(s, t, i) && Owned(s, t, i);
        assert s'.calls[t].hdrs[i] == s.calls[t].hdrs[i] != s.calls[u].hdrs[k];
      }
    }
  }

  lemma {:induction false} DonePrefix(ms: seq<Msg>, j: nat, k: nat)
    requires j <= k <= |ms|
    ensures Done(ms, j) <= Done(ms, k)
  {
    hide HeadOf;
    if j < k {
      DonePrefix(ms, j, k - 1);
    }
  }

  /** A message cut off anywhere still leaves the front of what the call has to send. */
  lemma CutPrefix(ms: seq<Msg>, k: nat, n: nat)
    requires k < |ms|
    ensures Done(ms, k) + Take(HeadOf(ms[k]) + ms[k].payload, n) <= Done(ms, |ms|)
  {
    DonePrefix(ms, k + 1, |ms|);
    assert Done(ms, k + 1) == Done(ms, k) + (HeadOf(ms[k]) + ms[k].payload);
  }

  lemma ShapedMove(s: State, c: Call, move: Move)
    requires Shaped(c) && Allowed(s, c, move)
    requires move.SendNext? || move.Fail? ==> s.mem[c.hdrs[c.phase.next]] == HeadOf(c.ms[c.phase.next])
    ensures Shaped(Moved(s, c, move))
  {
    hide HeadOf, Take;
    if move.Fail? {
      CutPrefix(c.ms, c.phase.next, move.n);
    }
  }

  /** The next header to be sent holds what its message needs. */
  lemma NextHolds(s: State, t: nat)
    requires Inv(s) && t < |s.calls| && s.calls[t].phase.Sending? && s.calls[t].phase.next < |s.calls[t].ms|
    ensures var c := s.calls[t]; var k := c.phase.next;
            k < |c.hdrs| && c.hdrs[k] < |s.mem| && s.mem[c.hdrs[k]] == HeadOf(c.ms[k])
  {
    hide HeadOf, Done;
    assert Shaped(s.calls[t]);
    assert InUse(s, t, s.calls[t].phase.next) && Holds(s, t, s.calls[t].phase.next) && Owned(s, t, s.calls[t].phase.next);
  }

  lemma ShapedNew(ms: seq<Msg>)
    ensures Shaped(Call(ms, [], 0, Filling, []))
  {
  }

  lemma ShapedStep(s: State, a: Action)
    requires Inv(s) && Enabled(s, a)
    ensures AllShaped(Apply(s, a))
  {
    hide Shaped, HeadOf, Done, Moved;
    if a.Begin? {
      ShapedNew(a.ms);
    }
    if a.By? {
      var c := s.calls[a.t];
      if a.move.SendNext? || a.move.Fail? {
        NextHolds(s, a.t);
      }
      ShapedMove(s, c, a.move);
    }
  }

  /** The bookkeeping of headers survives every step of every interleaving. */
  lemma {:induction false} RunInv(acts: seq<Action>)
    ensures Run(acts).Some? ==> Inv(Run(acts).value)
  {
    if acts != [] && Run(acts).Some? {
      RunInv(acts[..|acts| - 1]);
      var s, a := Run(acts[..|acts| - 1]).value, acts[|acts| - 1];
      ExclusiveStep(s, a);
      IntactStep(s, a);
      ShapedStep(s, a);
    }
  }

  /** In every reachable state, two uses of one header are the same use, and no header in use is in the pool. */
  lemma HeadersExclusive(acts: seq<Action>, t: nat, i: nat, u: nat, j: nat)
    requires Run(acts).Some?
    requires InUse(Run(acts).value, t, i) && InUse(Run(acts).value, u, j)
    ensures var s := Run(acts).value;
            s.calls[t].hdrs[i] !in s.idle && (s.calls[t].hdrs[i] == s.calls[u].hdrs[j] ==> t == u && i == j)
  {
    RunInv(acts);
    var s := Run(acts).value;
    assert Owned(s, t, i) && Owned(s, u, j);
  }

  /**
   A finished call has put every header back, and what it sent depends on its
   arguments alone: all frames on success, none on refusal, and the front of them, cut
   at any byte, when the connection broke.  It refuses exactly when a message is too long.
   */
  lemma SentDependsOnArguments(acts: seq<Action>, t: nat)
    requires Run(acts).Some? && t < |Run(acts).value.calls|
    requires var c := Run(acts).value.calls[t]; c.phase.Releasing? && c.phase.from == |c.hdrs|
    ensures var c := Run(acts).value.calls[t];
            match c.phase.outcome {
              case Delivered => c.sent == PushAll(c.ms)
              case Refused => c.sent == []
              case Broken => c.sent <= PushAll(c.ms)
            }
    ensures var c := Run(acts).value.calls[t]; c.phase.outcome == Refused <==> Oversize(c.ms)
    ensures forall i :: !InUse(Run(acts).value, t, i)
  {
    hide HeadOf, PushAll, Oversize;
    RunInv(acts);
    var c := Run(acts).value.calls[t];
    assert Shaped(c);
    DoneIsFrames(c.ms, |c.ms|);
    OversizeIff(c.ms);
    assert c.ms[..|c.ms|] == c.ms;
  }

  /** How many moves a call has left at most. */
  function MovesLeft(c: Call): int {
    match c.phase
    case Filling => 2 * (|c.ms| - c.filled) - (|c.hdrs| - c.filled) + 2 * |c.ms| + 2
    case Sending(k) => 2 * |c.ms| - k + 1
    case Releasing(k, _) => |c.hdrs| - k
  }

  /** A call that has not finished can move whatever the others are doing, and each of its moves brings it nearer to its end. */
  lemma CallsEnd(acts: seq<Action>, t: nat) returns (move: Move)
    requires Run(acts).Some? && t < |Run(acts).value.calls|
    requires var c := Run(acts).value.calls[t]; !(c.phase.Releasing? && c.phase.from == |c.hdrs|)
    ensures Enabled(Run(acts).value, By(t, move))
    ensures forall m :: Enabled(Run(acts).value, By(t, m)) ==>
              0 <= MovesLeft(Apply(Run(acts).value, By(t, m)).calls[t]) < MovesLeft(Run(acts).value.calls[t])
  {
    hide Run, HeadOf, Done;
    RunInv(acts);
    var s := Run(acts).value;
    var c := s.calls[t];
    assert Shaped(c);
    match c.phase {
      case Filling =>
        if c.filled < |c.hdrs| {
          assert InUse(s, t, c.filled) && Owned(s, t, c.filled);
        }
        move := if c.filled < |c.hdrs| then FillNext else if |c.hdrs| == |c.ms| then Launch
                else if NextFits(c) then TakeNew([]) else Refuse;
      case Sending(k) =>
        if k < |c.ms| {
          NextHolds(s, t);
        }
        move := if k < |c.ms| then SendNext else Finish;
      case Releasing(_, _) =>
        move := PutBack(true);
    }
  }
}
