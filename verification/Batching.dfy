/**
 The client's Batcher (network/client.go:258-341).  Add, Flush, Close and the timer
 callback race: each takes the mutex for a short section, and Flush publishes its
 batch outside it.  One step per section; the Flush calls on all goroutines' stacks,
 with the batch each has taken, are part of the state.
 */
module Batching {
  import opened Words

  /** NewBatcher turns a `maxBatch` below one into one; `maxDelay <= 0` means no timer. */
  datatype Config = Config(maxBatch: int, maxDelay: int)

  /** `b.timer`: nil, running, or fired with its callback's Flush (by number) not yet in its section. */
  datatype Timer = NoTimer | Armed | Fired(flush: nat)

  datatype Why = Size | Tick | Caller | Closing

  /** A Flush call: before its section, publishing batch number `slot`, back from publishing, or returned. */
  datatype Stage = Waiting | Sending(slot: nat) | Back(slot: nat, r: Result<int64>) | Done(took: Option<nat>, r: Result<int64>)

  datatype Call = Call(why: Why, stage: Stage)

  /**
   The four fields of the Batcher, the Flush calls, and the history: the payloads Add
   accepted, the batches in the order they were taken, who took them, the batches (by
   number) in the order PublishBatch returned for them, and what it had returned in the
   order of the second sections.
   */
  datatype State = State(buf: seq<Bytes>, timer: Timer, err: Option<Error>, closed: bool, flushes: seq<Call>,
                         accepted: seq<Bytes>, batches: seq<seq<Bytes>>, takers: seq<nat>, sent: seq<nat>,
                         recorded: seq<Result<int64>>)

  datatype Action =
    | Add(payload: Bytes)
    | CallFlush
    | CallClose
    | Expire
    | Take(i: nat)
    | Return(i: nat, r: Result<int64>)
    | Record(i: nat)

  const INIT := State([], NoTimer, None, false, [], [], [], [], [], [])

  predicate Enabled(s: State, a: Action) {
    match a
    case Expire => s.timer == Armed
    case Take(i) => i < |s.flushes| && s.flushes[i].stage == Waiting
    case Return(i, _) => i < |s.flushes| && s.flushes[i].stage.Sending?
    case Record(i) => i < |s.flushes| && s.flushes[i].stage.Back?
    case _ => true
  }

  function Spawn(s: State, why: Why): State {
    s.(flushes := s.flushes + [Call(why, Waiting)])
  }

  function Move(s: State, i: nat, stage: Stage): State
    requires i < |s.flushes|
  {
    s.(flushes := s.flushes[i := Call(s.flushes[i].why, stage)])
  }

  function Apply(c: Config, s: State, a: Action): State
    requires Enabled(s, a)
  {
    match a
    case Add(p) =>
      if s.closed || s.err.Some? then s
      else
        var s' := s.(buf := s.buf + [p], accepted := s.accepted + [p]);
        if |s'.buf| >= c.maxBatch then Spawn(s', Size)
        else if s.timer == NoTimer && c.maxDelay > 0 then s'.(timer := Armed)
        else s'
    case CallFlush => Spawn(s, Caller)
    case CallClose => Spawn(s, Closing).(closed := true)
    case Expire => Spawn(s, Tick).(timer := Fired(|s.flushes|))
    case Take(i) =>
      if s.buf == [] then Move(s, i, Done(None, if s.err.Some? then Err(s.err.value) else Ok(0))).(timer := NoTimer)
      else
        Move(s, i, Sending(|s.batches|)).(timer := NoTimer, buf := [], batches := s.batches + [s.buf], takers := s.takers + [i])
    case Return(i, r) =>
      var slot := s.flushes[i].stage.slot;
      Move(s, i, Back(slot, r)).(sent := s.sent + [slot])
    case Record(i) =>
      var Back(slot, r) := s.flushes[i].stage;
      Move(s, i, Done(Some(slot), r)).(err := if r.Err? then Some(r.error) else s.err, recorded := s.recorded + [r])
  }

  function Run(c: Config, acts: seq<Action>): Option<State> {
    if acts == [] then Some(INIT)
    else
      match Run(c, acts[..|acts| - 1])
      case None => None
      case Some(s) =>
        var a := acts[|acts| - 1];
        if Enabled(s, a) then Some(Apply(c, s, a)) else None
  }

  // ---- the invariant ----

  /** Some Flush has been called and has not reached its section yet. */
  ghost predicate FlushPending(s: State) {
    exists i :: 0 <= i < |s.flushes| && s.flushes[i].stage == Waiting
  }

  /** Adders that filled the buffer and have not reached the section of their Flush. */
  function Late(flushes: seq<Call>): nat {
    if flushes == [] then 0
    else
      var last := flushes[|flushes| - 1];
      Late(flushes[..|flushes| - 1]) + if last.why == Size && last.stage == Waiting then 1 else 0
  }

  /**
   Nothing is stranded: a full buffer has a flush coming, and so has, or will have when
   its timer expires, any non-empty one.  Without a delay there is no timer.
   */
  ghost predicate NotStranded(c: Config, s: State) {
    (|s.buf| >= c.maxBatch ==> FlushPending(s))
    && (s.buf != [] && c.maxDelay > 0 ==> s.timer == Armed || FlushPending(s))
    && (c.maxDelay <= 0 ==> s.timer == NoTimer)
    && (s.timer.Fired? ==> s.timer.flush < |s.flushes| && s.flushes[s.timer.flush].stage == Waiting)
  }

  function Took(f: Call): Option<nat> {
    match f.stage
    case Waiting => None
    case Sending(slot) => Some(slot)
    case Back(slot, _) => Some(slot)
    case Done(took, _) => took
  }

  ghost predicate TakerOk(s: State, slot: int)
    requires 0 <= slot < |s.takers|
  {
    s.takers[slot] < |s.flushes| && Took(s.flushes[s.takers[slot]]) == Some(slot)
  }

  ghost predicate FlushOk(s: State, i: int)
    requires 0 <= i < |s.flushes|
  {
    var f := s.flushes[i];
    (Took(f).Some? ==> Took(f).value < |s.takers| && s.takers[Took(f).value] == i
                       && (Took(f).value in s.sent <==> !f.stage.Sending?))
    && (f.why == Closing ==> s.closed && (f.stage != Waiting ==> s.buf == [] && s.timer == NoTimer))
  }

  ghost predicate NoRepeats(xs: seq<nat>) {
    forall i, j :: 0 <= i < j < |xs| ==> xs[i] != xs[j]
  }

  /** Every batch was taken by one Flush, every Flush takes at most one, and PublishBatch gets each one once. */
  ghost predicate TakenOnce(s: State) {
    |s.takers| == |s.batches| && (forall k :: 0 <= k < |s.takers| ==> TakerOk(s, k))
    && (forall i :: 0 <= i < |s.flushes| ==> FlushOk(s, i))
    && NoRepeats(s.sent) && (forall k :: k in s.sent ==> k < |s.batches|)
  }

  /** The error of the last failure in a row of results. */
  function LastError(rs: seq<Result<int64>>): Option<Error> {
    if rs == [] then None
    else if rs[|rs| - 1].Err? then Some(rs[|rs| - 1].error)
    else LastError(rs[..|rs| - 1])
  }

  /** This Flush call has been through its second section with this result. */
  predicate Finished(f: Call, r: Result<int64>) {
    f.stage.Done? && f.stage.took.Some? && f.stage.r == r
  }

  /** A finished call's result is recorded; one that found nothing to send was told zero or a recorded error. */
  ghost predicate ResultOk(s: State, i: int)
    requires 0 <= i < |s.flushes|
  {
    s.flushes[i].stage.Done? ==>
      s.flushes[i].stage.r in s.recorded || (s.flushes[i].stage.took == None && s.flushes[i].stage.r == Ok(0))
  }

  /** The error kept is the last one recorded, and what is recorded was some call's result. */
  ghost predicate ErrorsOk(s: State) {
    s.err == LastError(s.recorded) && (forall i :: 0 <= i < |s.flushes| ==> ResultOk(s, i))
    && forall r :: r in s.recorded ==> exists i :: 0 <= i < |s.flushes| && Finished(s.flushes[i], r)
  }

  ghost predicate Inv(c: Config, s: State) {
    Flatten(s.batches) + s.buf == s.accepted && ErrorsOk(s)
    && NotStranded(c, s) && TakenOnce(s) && |s.buf| < c.maxBatch + Late(s.flushes)
  }

  lemma LateSnoc(flushes: seq<Call>, f: Call)
    ensures Late(flushes + [f]) == Late(flushes) + if f.why == Size && f.stage == Waiting then 1 else 0
  {
    assert (flushes + [f])[..|flushes|] == flushes;
  }

  lemma {:induction false} LateSame(flushes: seq<Call>, i: nat, f: Call)
    requires i < |flushes| && flushes[i].stage != Waiting && f.stage != Waiting
    ensures Late(flushes[i := f]) == Late(flushes)
  {
    var n := |flushes| - 1;
    if i < n {
      LateSame(flushes[..n], i, f);
      assert flushes[i := f][..n] == flushes[..n][i := f];
    } else {
      assert flushes[i := f][..n] == flushes[..n];
    }
  }

  lemma BoundStep(c: Config, s: State, a: Action)
    requires c.maxBatch > 0 && Inv(c, s) && Enabled(s, a)
    ensures |Apply(c, s, a).buf| < c.maxBatch + Late(Apply(c, s, a).flushes)
  {
    var s' := Apply(c, s, a);
    if |s'.flushes| > |s.flushes| {
      LateSnoc(s.flushes, s'.flushes[|s.flushes|]);
    } else if a.Return? || a.Record? {
      LateSame(s.flushes, a.i, s'.flushes[a.i]);
    }
  }

  lemma StrandedStep(c: Config, s: State, a: Action)
    requires c.maxBatch > 0 && NotStranded(c, s) && Enabled(s, a)
    ensures NotStranded(c, Apply(c, s, a))
  {
    var s' := Apply(c, s, a);
    if |s'.flushes| > |s.flushes| {
      assert s'.flushes[|s.flushes|].stage == Waiting;
    } else if FlushPending(s) && !a.Take? {
      var i :| 0 <= i < |s.flushes| && s.flushes[i].stage == Waiting;
      assert s'.flushes[i].stage == Waiting;
    }
  }

  lemma TakersStep(c: Config, s: State, a: Action)
    requires TakenOnce(s) && Enabled(s, a)
    ensures var s' := Apply(c, s, a); forall k :: 0 <= k < |s'.takers| ==> TakerOk(s', k)
  {
    hide FlushOk, NoRepeats;
    var s' := Apply(c, s, a);
    forall k | 0 <= k < |s'.takers| ensures TakerOk(s', k) {
      if k < |s.takers| {
        assert TakerOk(s, k);
      }
    }
  }

  lemma FlushStep(c: Config, s: State, a: Action, i: nat)
    requires TakenOnce(s) && Enabled(s, a) && i < |Apply(c, s, a).flushes|
    ensures FlushOk(Apply(c, s, a), i)
  {
    hide NoRepeats;
    if i < |s.flushes| {
      assert FlushOk(s, i);
    }
    if a.Return? {
      assert FlushOk(s, a.i);
    }
  }

  lemma SentStep(c: Config, s: State, a: Action)
    requires TakenOnce(s) && Enabled(s, a)
    ensures var s' := Apply(c, s, a);
            |s'.takers| == |s'.batches| && NoRepeats(s'.sent) && forall k :: k in s'.sent ==> k < |s'.batches|
  {
    hide TakerOk;
    if a.Return? {
      assert FlushOk(s, a.i);
    }
  }

  lemma TakenStep(c: Config, s: State, a: Action)
    requires TakenOnce(s) && Enabled(s, a)
    ensures TakenOnce(Apply(c, s, a))
  {
    hide Apply, TakerOk, FlushOk, NoRepeats;
    TakersStep(c, s, a);
    SentStep(c, s, a);
    forall i | 0 <= i < |Apply(c, s, a).flushes| ensures FlushOk(Apply(c, s, a), i) {
      FlushStep(c, s, a, i);
    }
  }

  lemma {:induction false} RunInv(c: Config, acts: seq<Action>)
    requires c.maxBatch > 0
    ensures Run(c, acts).Some? ==> Inv(c, Run(c, acts).value)
  {
    if acts != [] && Run(c, acts).Some? {
      var s, a := Run(c, acts[..|acts| - 1]).value, acts[|acts| - 1];
      RunInv(c, acts[..|acts| - 1]);
      BoundStep(c, s, a);
      StrandedStep(c, s, a);
      TakenStep(c, s, a);
      ConservedStep(c, s, a);
      ErrorsStep(c, s, a);
    }
  }

  lemma {:induction false} LastErrorIn(rs: seq<Result<int64>>)
    ensures LastError(rs).Some? ==> Err(LastError(rs).value) in rs
    ensures LastError(rs) == None ==> forall r :: r in rs ==> r.Ok?
  {
    if rs != [] {
      LastErrorIn(rs[..|rs| - 1]);
      assert rs == rs[..|rs| - 1] + [rs[|rs| - 1]];
    }
  }

  lemma ErrorsStep(c: Config, s: State, a: Action)
    requires ErrorsOk(s) && Enabled(s, a)
    ensures ErrorsOk(Apply(c, s, a))
  {
    var t := Apply(c, s, a);
    LastErrorIn(s.recorded);
    assert a.Record? ==> t.recorded[..|s.recorded|] == s.recorded;
    forall i | 0 <= i < |t.flushes| ensures ResultOk(t, i) {
      if i < |s.flushes| {
        assert ResultOk(s, i);
      }
    }
    forall r | r in t.recorded ensures exists i :: 0 <= i < |t.flushes| && Finished(t.flushes[i], r) {
      if r in s.recorded {
        var i :| 0 <= i < |s.flushes| && Finished(s.flushes[i], r);
        assert Finished(t.flushes[i], r);
      } else {
        assert Finished(t.flushes[a.i], r);
      }
    }
  }

  lemma ConservedStep(c: Config, s: State, a: Action)
    requires Enabled(s, a) && Flatten(s.batches) + s.buf == s.accepted
    ensures var s' := Apply(c, s, a); Flatten(s'.batches) + s'.buf == s'.accepted
  {
    if a.Take? && s.buf != [] {
      FlattenSnoc(s.batches, s.buf);
    }
  }

  // ---- what the Batcher promises, over every run ----

  /** Accepted payloads, in the order of Add, are the batches in the order they were taken and then the buffer. */
  lemma Conservation(c: Config, acts: seq<Action>)
    requires c.maxBatch > 0 && Run(c, acts).Some?
    ensures var s := Run(c, acts).value; s.accepted == Flatten(s.batches) + s.buf
  {
    RunInv(c, acts);
  }

  /** Nothing waits for ever, and the buffer outgrows `maxBatch` only by adders about to flush it. */
  lemma NothingStranded(c: Config, acts: seq<Action>)
    requires c.maxBatch > 0 && Run(c, acts).Some?
    ensures var s := Run(c, acts).value;
            (|s.buf| >= c.maxBatch ==> FlushPending(s))
            && (s.buf != [] && c.maxDelay > 0 ==> s.timer == Armed || FlushPending(s))
            && |s.buf| < c.maxBatch + Late(s.flushes)
  {
    RunInv(c, acts);
  }

  /** No batch goes to PublishBatch twice, and once every Flush has returned each one has been there. */
  lemma EachBatchOnce(c: Config, acts: seq<Action>)
    requires c.maxBatch > 0 && Run(c, acts).Some?
    ensures var s := Run(c, acts).value;
            NoRepeats(s.sent) && (forall k :: k in s.sent ==> k < |s.batches|)
            && ((forall i :: 0 <= i < |s.flushes| ==> s.flushes[i].stage.Done?)
                ==> forall k :: 0 <= k < |s.batches| ==> k in s.sent)
  {
    RunInv(c, acts);
    var s := Run(c, acts).value;
    if forall i :: 0 <= i < |s.flushes| ==> s.flushes[i].stage.Done? {
      forall k | 0 <= k < |s.batches| ensures k in s.sent {
        assert TakerOk(s, k) && FlushOk(s, s.takers[k]);
      }
    }
  }

  /**
   No failure is forgotten: an error is kept exactly when some Flush has failed, it is the
   last one recorded, and that some batch's PublishBatch returned it.
   */
  lemma ErrorsKept(c: Config, acts: seq<Action>)
    requires c.maxBatch > 0 && Run(c, acts).Some?
    ensures var s := Run(c, acts).value;
            (s.err.Some? <==> exists i :: 0 <= i < |s.flushes| && s.flushes[i].stage.Done? && s.flushes[i].stage.r.Err?)
            && s.err == LastError(s.recorded)
            && (s.err.Some? ==> exists i :: 0 <= i < |s.flushes| && Finished(s.flushes[i], Err(s.err.value)))
  {
    RunInv(c, acts);
    var s := Run(c, acts).value;
    LastErrorIn(s.recorded);
    if i :| 0 <= i < |s.flushes| && s.flushes[i].stage.Done? && s.flushes[i].stage.r.Err? {
      assert ResultOk(s, i);
    }
    if s.err.Some? {
      var i :| 0 <= i < |s.flushes| && Finished(s.flushes[i], Err(s.err.value));
      assert s.flushes[i].stage.Done?;
    }
  }

  /** What PublishBatch returned, in the order it did. */
  function Told(acts: seq<Action>): seq<Result<int64>> {
    if acts == [] then []
    else Told(acts[..|acts| - 1]) + if acts[|acts| - 1].Return? then [acts[|acts| - 1].r] else []
  }

  /** Whoever took a batch is told what PublishBatch returned for that batch, and for no other. */
  lemma {:induction false} AnswersAreTold(c: Config, acts: seq<Action>, i: nat)
    requires c.maxBatch > 0 && Run(c, acts).Some? && i < |Run(c, acts).value.flushes|
    requires var f := Run(c, acts).value.flushes[i]; f.stage.Back? || (f.stage.Done? && f.stage.took.Some?)
    ensures var (s, f) := (Run(c, acts).value, Run(c, acts).value.flushes[i]);
            |Told(acts)| == |s.sent|
            && exists k :: 0 <= k < |s.sent| && s.sent[k] == Took(f).value && Told(acts)[k] == f.stage.r
  {
    var init, a := acts[..|acts| - 1], acts[|acts| - 1];
    var s, t := Run(c, init).value, Run(c, acts).value;
    ToldOfSent(c, acts);
    TakenBy(c, init, a, i);
    if a == Return(i, t.flushes[i].stage.r) && s.flushes[i].stage.Sending? {
      assert t.sent[|s.sent|] == Took(t.flushes[i]).value && Told(acts)[|s.sent|] == t.flushes[i].stage.r;
    } else {
      AnswersAreTold(c, init, i);
      var k :| 0 <= k < |s.sent| && s.sent[k] == Took(s.flushes[i]).value && Told(init)[k] == s.flushes[i].stage.r;
      assert t.sent[k] == Took(t.flushes[i]).value && Told(acts)[k] == t.flushes[i].stage.r;
    }
  }

  /** A call that is back from PublishBatch after a step was so before, or this step brought it back. */
  lemma TakenBy(c: Config, init: seq<Action>, a: Action, i: nat)
    requires Run(c, init).Some? && Enabled(Run(c, init).value, a) && i < |Apply(c, Run(c, init).value, a).flushes|
    requires var f := Apply(c, Run(c, init).value, a).flushes[i]; f.stage.Back? || (f.stage.Done? && f.stage.took.Some?)
    ensures var (s, t) := (Run(c, init).value, Apply(c, Run(c, init).value, a));
            i < |s.flushes| && Took(s.flushes[i]) == Took(t.flushes[i])
            && ((s.flushes[i].stage.Sending? && a == Return(i, t.flushes[i].stage.r))
                || ((s.flushes[i].stage.Back? || (s.flushes[i].stage.Done? && s.flushes[i].stage.took.Some?))
                    && s.flushes[i].stage.r == t.flushes[i].stage.r))
            && s.sent <= t.sent
  {
  }

  lemma {:induction false} ToldOfSent(c: Config, acts: seq<Action>)
    requires Run(c, acts).Some?
    ensures |Told(acts)| == |Run(c, acts).value.sent|
  {
    if acts != [] {
      ToldOfSent(c, acts[..|acts| - 1]);
    }
  }

  lemma RunSnoc(c: Config, acts: seq<Action>, a: Action)
    ensures Run(c, acts + [a]) ==
            match Run(c, acts)
            case None => None
            case Some(s) => if Enabled(s, a) then Some(Apply(c, s, a)) else None
  {
    assert (acts + [a])[..|acts|] == acts;
  }

  /** What has been accepted and taken stays; an error or a close, once there, stays too and stops Add. */
  ghost predicate Continues(s: State, t: State) {
    s.accepted <= t.accepted && s.batches <= t.batches && |s.flushes| <= |t.flushes|
    && (s.closed ==> t.closed) && (s.err.Some? ==> t.err.Some?)
    && (s.closed || s.err.Some? ==> t.accepted == s.accepted)
    && (forall i :: 0 <= i < |s.flushes| ==> Onward(s.flushes[i], t.flushes[i]))
  }

  ghost predicate Onward(f: Call, g: Call) {
    g.why == f.why && (f.stage != Waiting ==> g.stage != Waiting) && (f.stage.Done? ==> g == f)
  }

  lemma {:induction false} RunContinues(c: Config, acts: seq<Action>, more: seq<Action>)
    requires Run(c, acts + more).Some?
    ensures Run(c, acts).Some? && Continues(Run(c, acts).value, Run(c, acts + more).value)
  {
    if more == [] {
      assert acts + more == acts;
    } else {
      var init, a := more[..|more| - 1], more[|more| - 1];
      assert acts + more == (acts + init) + [a];
      RunSnoc(c, acts + init, a);
      RunContinues(c, acts, init);
      StepContinues(c, Run(c, acts).value, Run(c, acts + init).value, a);
    }
  }

  lemma StepContinues(c: Config, s: State, t: State, a: Action)
    requires Continues(s, t) && Enabled(t, a)
    ensures Continues(s, Apply(c, t, a))
  {
    var u := Apply(c, t, a);
    forall i | 0 <= i < |s.flushes| ensures Onward(s.flushes[i], u.flushes[i]) {
      assert Onward(s.flushes[i], t.flushes[i]);
    }
  }

  /** Once the Flush of a Close has been through its section, the buffer is empty for ever and no timer runs again. */
  lemma EmptyOnceClosed(c: Config, acts: seq<Action>, more: seq<Action>, i: nat)
    requires c.maxBatch > 0 && Run(c, acts + more).Some? && Run(c, acts).Some? && i < |Run(c, acts).value.flushes|
    requires Run(c, acts).value.flushes[i].why == Closing && Run(c, acts).value.flushes[i].stage != Waiting
    ensures var s, t := Run(c, acts).value, Run(c, acts + more).value;
            t.buf == [] && t.timer == NoTimer && t.accepted == s.accepted == Flatten(t.batches) && t.batches == s.batches
  {
    RunInv(c, acts);
    RunInv(c, acts + more);
    RunContinues(c, acts, more);
    var s, t := Run(c, acts).value, Run(c, acts + more).value;
    assert FlushOk(s, i) && Onward(s.flushes[i], t.flushes[i]) && FlushOk(t, i);
    SameBatches(c, acts, more, i);
  }

  lemma {:induction false} SameBatches(c: Config, acts: seq<Action>, more: seq<Action>, i: nat)
    requires c.maxBatch > 0 && Run(c, acts + more).Some? && Run(c, acts).Some? && i < |Run(c, acts).value.flushes|
    requires Run(c, acts).value.flushes[i].why == Closing && Run(c, acts).value.flushes[i].stage != Waiting
    ensures Run(c, acts + more).value.batches == Run(c, acts).value.batches
  {
    assert more == [] ==> acts + more == acts;
    if more != [] {
      var init, a := more[..|more| - 1], more[|more| - 1];
      assert acts + more == (acts + init) + [a];
      RunSnoc(c, acts + init, a);
      SameBatches(c, acts, init, i);
      RunContinues(c, acts, init);
      RunInv(c, acts + init);
      var s, t := Run(c, acts).value, Run(c, acts + init).value;
      assert Onward(s.flushes[i], t.flushes[i]) && FlushOk(t, i);
    }
  }

  // ---- the object ----

  /** The step that starts a Flush for this reason. */
  function CallOf(why: Why): Action {
    if why == Tick then Expire else if why == Closing then CallClose else CallFlush
  }

  /** What the caller of Flush gets: first offset, number of messages, error. */
  datatype Sent = Sent(base: int64, count: int, err: Option<Error>)

  class Batcher {
    const maxBatch: int
    const maxDelay: int
    var buf: seq<Bytes>
    var timer: Timer
    var err: Option<Error>
    var closed: bool
    /** The Flush calls on everybody's stacks, and the batches they took there. */
    var flushes: seq<Call>
    var batches: seq<seq<Bytes>>

    ghost var accepted: seq<Bytes>
    ghost var takers: seq<nat>
    ghost var sent: seq<nat>
    ghost var recorded: seq<Result<int64>>
    ghost var trace: seq<Action>

    ghost function Cfg(): Config {
      Config(maxBatch, maxDelay)
    }

    ghost function View(): State
      reads this
    {
      State(buf, timer, err, closed, flushes, accepted, batches, takers, sent, recorded)
    }

    /** The object is in the state its trace leads to. */
    ghost predicate Valid()
      reads this
    {
      maxBatch > 0 && Run(Cfg(), trace) == Some(View())
    }

    constructor (most: int, delay: int)
      ensures Valid() && View() == INIT && maxBatch == (if most <= 0 then 1 else most) && maxDelay == delay
    {
      maxBatch := if most <= 0 then 1 else most;
      maxDelay := delay;
      buf, timer, err, closed, flushes := [], NoTimer, None, false, [];
      accepted, batches, takers, sent, recorded, trace := [], [], [], [], [], [];
    }

    /** The fields have just been changed as `a` says: note the step. */
    ghost method Did(a: Action, before: State)
      requires Run(Cfg(), trace) == Some(before) && maxBatch > 0 && Enabled(before, a)
      requires Apply(Cfg(), before, a) == View()
      modifies this`trace
      ensures Valid() && trace == old(trace) + [a]
    {
      RunSnoc(Cfg(), trace, a);
      trace := trace + [a];
    }

    // ---- the sections under the mutex ----

    /** Add up to its Unlock; None when the buffer is full and Flush call `|old(flushes)|` comes next. */
    method AddSection(payload: Bytes) returns (r: Option<Result<()>>)
      requires Valid()
      modifies this
      ensures Valid() && View() == Apply(Cfg(), old(View()), Action.Add(payload))
      ensures r == if old(closed) then Some(Err(Closed))
                   else if old(err).Some? then Some(Err(old(err).value))
                   else if |old(buf)| + 1 >= maxBatch then None else Some(Ok(()))
    {
      hide Run;
      ghost var before := View();
      if closed {
        r := Some(Err(Closed));
      } else if err.Some? {
        r := Some(Err(err.value));
      } else {
        buf := buf + [payload];
        accepted := accepted + [payload];
        if |buf| >= maxBatch {
          flushes := flushes + [Call(Size, Waiting)];
          r := None;
        } else {
          if timer == NoTimer && maxDelay > 0 {
            timer := Armed;
          }
          r := Some(Ok(()));
        }
      }
      Did(Action.Add(payload), before);
    }

    /** The first section of Flush call `i`: stop the timer and take the buffer. */
    method TakeSection(i: nat) returns (batch: seq<Bytes>)
      requires Valid() && i < |flushes| && flushes[i].stage == Waiting
      modifies this
      ensures Valid() && View() == Apply(Cfg(), old(View()), Take(i)) && batch == old(buf)
    {
      hide Run;
      ghost var before := View();
      timer := NoTimer;
      batch := buf;
      if |buf| == 0 {
        var r: Result<int64> := if err.Some? then Err(err.value) else Ok(0);
        flushes := flushes[i := Call(flushes[i].why, Done(None, r))];
      } else {
        flushes := flushes[i := Call(flushes[i].why, Sending(|batches|))];
        batches, takers := batches + [buf], takers + [i];
        buf := [];
      }
      Did(Take(i), before);
    }

    /** PublishBatch has come back to Flush call `i`. */
    method Returned(i: nat, r: Result<int64>)
      requires Valid() && i < |flushes| && flushes[i].stage.Sending?
      modifies this
      ensures Valid() && View() == Apply(Cfg(), old(View()), Return(i, r))
    {
      hide Run;
      ghost var before := View();
      sent := sent + [flushes[i].stage.slot];
      flushes := flushes[i := Call(flushes[i].why, Back(flushes[i].stage.slot, r))];
      Did(Return(i, r), before);
    }

    /** The second section: an error is kept for later calls. */
    method RecordSection(i: nat)
      requires Valid() && i < |flushes| && flushes[i].stage.Back?
      modifies this
      ensures Valid() && View() == Apply(Cfg(), old(View()), Record(i))
    {
      hide Run;
      ghost var before := View();
      var Back(slot, r) := flushes[i].stage;
      if r.Err? {
        err := Some(r.error);
      }
      flushes := flushes[i := Call(flushes[i].why, Done(Some(slot), r))];
      recorded := recorded + [r];
      Did(Record(i), before);
    }

    /** A call of Flush or Close, or the timer's callback, gets as far as its Flush. */
    method Start(why: Why)
      requires Valid() && why != Size && (why == Tick ==> timer == Armed)
      modifies this
      ensures Valid()
      ensures View() == Apply(Cfg(), old(View()), CallOf(why))
    {
      hide Run;
      ghost var before := View();
      if why == Tick {
        timer := Fired(|flushes|);
      } else if why == Closing {
        closed := true;
      }
      flushes := flushes + [Call(why, Waiting)];
      Did(CallOf(why), before);
    }

    // ---- other goroutines ----

    /** Some other goroutine takes one step; Flush call `mine` is not theirs. */
    method Somebody(mine: nat)
      requires Valid() && mine < |flushes|
      modifies this
      ensures Valid() && Continues(old(View()), View()) && flushes[mine] == old(flushes[mine])
    {
      hide Run;
      ghost var before := View();
      var what: int, i: int := *, *;
      if what == 0 {
        var payload: Bytes := *;
        var r := AddSection(payload);
        StepContinues(Cfg(), before, before, Action.Add(payload));
      } else if what == 1 {
        var why: Why := *;
        if why != Size && (why == Tick ==> timer == Armed) {
          Start(why);
          StepContinues(Cfg(), before, before, CallOf(why));
        }
      } else if 0 <= i < |flushes| && i != mine {
        var answer: Result<int64> := *;
        StepFlush(i, answer);
      }
    }

    method StepFlush(i: nat, answer: Result<int64>)
      requires Valid() && i < |flushes|
      modifies this
      ensures Valid() && Continues(old(View()), View())
      ensures |flushes| == |old(flushes)| && forall j :: 0 <= j < |flushes| && j != i ==> flushes[j] == old(flushes[j])
    {
      hide Run;
      ghost var before := View();
      if flushes[i].stage == Waiting {
        var batch := TakeSection(i);
        StepContinues(Cfg(), before, before, Take(i));
      } else if flushes[i].stage.Sending? {
        Returned(i, answer);
        StepContinues(Cfg(), before, before, Return(i, answer));
      } else if flushes[i].stage.Back? {
        RecordSection(i);
        StepContinues(Cfg(), before, before, Record(i));
      }
    }

    /** Whatever others do while a call is outside the mutex, if they do anything (`busy`). */
    method Others(mine: nat, busy: bool)
      requires Valid() && mine < |flushes|
      modifies this
      ensures Valid() && Continues(old(View()), View()) && flushes[mine] == old(flushes[mine])
      ensures !busy ==> View() == old(View())
    {
      hide Run;
      var rounds: int := *;
      while busy && rounds > 0
        invariant Valid() && Continues(old(View()), View()) && flushes[mine] == old(flushes[mine])
        invariant !busy ==> View() == old(View())
        decreases rounds
      {
        ghost var s := View();
        Somebody(mine);
        ContinuesTrans(old(View()), s, View());
        rounds := rounds - 1;
      }
    }

    // ---- the methods ----

    /** Flush call `i` from its first section to its end, others in between; `answer` is PublishBatch's, if it is called. */
    method FlushOn(i: nat, busy: bool, answer: Result<int64>) returns (out: Sent)
      requires Valid() && i < |flushes| && flushes[i].stage == Waiting
      modifies this
      ensures Valid() && Continues(old(View()), View()) && Answers(View(), i, out) && Passes(answer, out)
      ensures Keeps(old(err), err, out) && (!busy ==> FlushedAlone(old(View()), View(), answer, out))
    {
      hide Run;
      Others(i, busy);
      ghost var s := View();
      var batch := TakeSection(i);
      StepContinues(Cfg(), old(View()), s, Take(i));
      if |batch| == 0 {
        return Sent(0, 0, err);
      }
      ghost var t := View();
      Others(i, busy);
      ContinuesTrans(old(View()), t, View());
      ghost var u := View();
      out := Publish(i, |batch|, busy, answer);
      ContinuesTrans(old(View()), u, View());
    }

    /** PublishBatch, then the second section. */
    method Publish(i: nat, n: nat, busy: bool, answer: Result<int64>) returns (out: Sent)
      requires Valid() && i < |flushes| && flushes[i].stage.Sending?
      requires flushes[i].stage.slot < |batches| && |batches[flushes[i].stage.slot]| == n > 0
      modifies this
      ensures Valid() && Continues(old(View()), View()) && Answers(View(), i, out) && flushes[i].stage.took.Some?
      ensures out.count == n && Passes(answer, out) && (answer.Err? ==> err == Some(answer.error))
      ensures !busy ==> View() == old(View()).(flushes := flushes, sent := sent, recorded := recorded,
                                               err := if answer.Err? then Some(answer.error) else old(err))
    {
      hide Run;
      Returned(i, answer);
      StepContinues(Cfg(), old(View()), old(View()), Return(i, answer));
      ghost var s := View();
      Others(i, busy);
      ContinuesTrans(old(View()), s, View());
      ghost var t := View();
      RecordSection(i);
      StepContinues(Cfg(), old(View()), t, Record(i));
      out := if answer.Ok? then Sent(answer.value, n, None) else Sent(0, n, Some(answer.error));
    }

    /** Flush; with nothing buffered the answer is the last error. */
    method Flush(busy: bool, answer: Result<int64>) returns (out: Sent)
      requires Valid()
      modifies this
      ensures Valid() && Continues(old(View()), View()) && |flushes| > |old(flushes)|
      ensures Answers(View(), |old(flushes)|, out) && Passes(answer, out) && Keeps(old(err), err, out)
      ensures !busy ==> FlushedAlone(old(View()), View(), answer, out)
    {
      hide Run;
      var i := |flushes|;
      Start(Caller);
      StepContinues(Cfg(), old(View()), old(View()), CallFlush);
      ghost var s := View();
      out := FlushOn(i, busy, answer);
      ContinuesTrans(old(View()), s, View());
    }

    /** Add: refused without a trace once closed or in error; accepted, and flushed when that fills the buffer, otherwise. */
    method Add(payload: Bytes, busy: bool, answer: Result<int64>) returns (r: Result<()>)
      requires Valid()
      modifies this
      ensures Valid() && Continues(old(View()), View())
      ensures old(closed) ==> r == Err(Closed) && View() == old(View())
      ensures !old(closed) && old(err).Some? ==> r == Err(old(err).value) && View() == old(View())
      ensures !old(closed) && old(err) == None ==> old(accepted) + [payload] <= accepted
      ensures !old(closed) && old(err) == None && |old(buf)| + 1 < maxBatch ==>
                r == Ok(()) && buf == old(buf) + [payload] && flushes == old(flushes) && (maxDelay > 0 ==> timer != NoTimer)
      ensures !old(closed) && old(err) == None && |old(buf)| + 1 >= maxBatch ==>
                |flushes| > |old(flushes)|
                && exists out :: Answers(View(), |old(flushes)|, out) && Passes(answer, out) && Keeps(None, err, out)
                                 && r == (if out.err == None then Ok(()) else Err(out.err.value))
                                 && (!busy ==> FlushedAlone(old(View()).(buf := old(buf) + [payload],
                                                                         accepted := old(accepted) + [payload]),
                                                            View(), answer, out))
    {
      hide Run;
      var i := |flushes|;
      var done := AddSection(payload);
      StepContinues(Cfg(), old(View()), old(View()), Action.Add(payload));
      if done.Some? {
        return done.value;
      }
      ghost var s := View();
      var out := FlushOn(i, busy, answer);
      ContinuesTrans(old(View()), s, View());
      r := if out.err == None then Ok(()) else Err(out.err.value);
    }

    /** Close: nothing is accepted from here on, and what was accepted has been taken when it returns. */
    method Close(busy: bool, answer: Result<int64>) returns (r: Option<Error>)
      requires Valid()
      modifies this
      ensures Valid() && Continues(old(View()), View()) && closed
      ensures buf == [] && timer == NoTimer && accepted == Flatten(batches)
      ensures exists out :: |flushes| > |old(flushes)| && Answers(View(), |old(flushes)|, out) && r == out.err
                            && Passes(answer, out) && Keeps(old(err), err, out)
                            && (!busy ==> FlushedAlone(old(View()).(closed := true), View(), answer, out))
    {
      hide Run;
      var i := |flushes|;
      Start(Closing);
      StepContinues(Cfg(), old(View()), old(View()), CallClose);
      ghost var s := View();
      var out := FlushOn(i, busy, answer);
      ContinuesTrans(old(View()), s, View());
      RunInv(Cfg(), trace);
      assert FlushOk(View(), i) && Onward(s.flushes[i], flushes[i]);
      r := out.err;
    }
  }

  /** Flush call `i` has returned, and `out` is its answer: its own batch and what PublishBatch said, or the kept error. */
  ghost predicate Answers(s: State, i: nat, out: Sent) {
    i < |s.flushes|
    && match s.flushes[i].stage {
      case Done(None, Ok(_)) => out == Sent(0, 0, None)
      case Done(None, Err(e)) => out == Sent(0, 0, Some(e))
      case Done(Some(slot), Ok(base)) => slot < |s.batches| && out == Sent(base, |s.batches[slot]|, None)
      case Done(Some(slot), Err(e)) => slot < |s.batches| && out == Sent(0, |s.batches[slot]|, Some(e))
      case _ => false
    }
  }

  /** The caller of a Flush that had something to send is told what PublishBatch answered. */
  ghost predicate Passes(answer: Result<int64>, out: Sent) {
    out.count > 0 ==> match answer { case Ok(base) => out.base == base && out.err == None
                                     case Err(e) => out.base == 0 && out.err == Some(e) }
  }

  /** Errors are kept: one that a Flush reports stays for later calls, and with nothing to send it reports the one kept. */
  ghost predicate Keeps(before: Option<Error>, after: Option<Error>, out: Sent) {
    (out.err.Some? ==> after.Some?) && (before.Some? ==> after.Some?)
    && (out.count == 0 ==> out.base == 0 && (before.Some? ==> out.err.Some?))
  }

  /** What a Flush does when nobody else is about: the buffer goes out as one batch, if there is anything in it. */
  ghost predicate FlushedAlone(s: State, t: State, answer: Result<int64>, out: Sent) {
    t.buf == [] && t.timer == NoTimer && t.closed == s.closed && t.accepted == s.accepted
    && if s.buf == [] then out == Sent(0, 0, s.err) && t.err == s.err && t.batches == s.batches
       else
         out.count == |s.buf| && t.batches == s.batches + [s.buf]
         && t.err == if answer.Err? then Some(answer.error) else s.err
  }

  lemma ContinuesTrans(s: State, t: State, u: State)
    requires Continues(s, t) && Continues(t, u)
    ensures Continues(s, u)
  {
    forall i | 0 <= i < |s.flushes| ensures Onward(s.flushes[i], u.flushes[i]) {
      assert Onward(s.flushes[i], t.flushes[i]) && Onward(t.flushes[i], u.flushes[i]);
    }
  }
}
