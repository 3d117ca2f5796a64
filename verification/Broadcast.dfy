/** What the partition promises (broker/partition.go, broker/subscription.go), over every run of the kernel. */
module Broadcast {
  import opened Words
  import opened Store
  import opened Kernel

  // ---- running on ----

  lemma RunSnoc(m: Policy, acts: seq<Action>, a: Action)
    ensures Run(m, acts + [a]) ==
            match Run(m, acts)
            case None => None
            case Some(s) => if Enabled(m, s, a) then Some(Apply(m, s, a)) else None
  {
    assert (acts + [a])[..|acts|] == acts;
  }

  /** A run that goes on: the log and every history only grow, a closed `done` stays closed. */
  ghost predicate Extends(s: State, t: State) {
    s.log <= t.log && |s.subs| <= |t.subs| && s.calls <= t.calls && (s.closed ==> t.closed)
    && (s.closed ==> t.log == s.log)
    && forall i :: 0 <= i < |s.subs| ==> Later(s.subs[i], t.subs[i])
  }

  ghost predicate Later(u: Sub, v: Sub) {
    u.batches <= v.batches && (u.done ==> v.done && v.batches == u.batches)
  }

  lemma StepExtends(m: Policy, s: State, a: Action)
    requires Inv(m, s) && Enabled(m, s, a)
    ensures Extends(s, Apply(m, s, a))
  {
  }

  lemma ExtendsTrans(s: State, t: State, u: State)
    requires Extends(s, t) && Extends(t, u)
    ensures Extends(s, u)
  {
    forall i | 0 <= i < |s.subs| ensures Later(s.subs[i], u.subs[i]) {
      assert Later(s.subs[i], t.subs[i]) && Later(t.subs[i], u.subs[i]);
    }
  }

  /**
   Whatever happens later, nothing delivered or published is taken back; after `done`
   is closed that subscription gets nothing more, and a closed partition's log is final.
   */
  lemma {:induction false} RunExtends(m: Policy, acts: seq<Action>, more: seq<Action>)
    requires Run(m, acts + more).Some?
    ensures Run(m, acts).Some? && Extends(Run(m, acts).value, Run(m, acts + more).value)
  {
    if more == [] {
      assert acts + more == acts;
    } else {
      var init, a := more[..|more| - 1], more[|more| - 1];
      assert acts + more == (acts + init) + [a];
      RunSnoc(m, acts + init, a);
      RunExtends(m, acts, init);
      RunInv(m, acts + init);
      StepExtends(m, Run(m, acts + init).value, a);
      ExtendsTrans(Run(m, acts).value, Run(m, acts + init).value, Run(m, acts + more).value);
    }
  }

  // ---- no lost wake-up ----

  /** The publisher that owns the lock will still signal `i`. */
  predicate WillSignal(s: State, i: nat) {
    Pending(s, i) || (s.lock.Appending? && s.lock.k > 0 && i in s.live)
  }

  /**
   Every parked Read that has something to do can be woken: behind the log of an open
   subscription it has its token, or the lock holder has yet to signal it; on a closed
   one its `done` is open to receive, or the closing lock holder has yet to close it.
   */
  ghost predicate NoLostWakeup(s: State) {
    forall i :: 0 <= i < |s.subs| && s.subs[i].pc.Parked? ==>
      (!s.subs[i].done && s.subs[i].offset < |s.log| ==> s.subs[i].ready || WillSignal(s, i))
      && (s.closed ==> s.subs[i].done || (s.lock.Closing? && i in s.lock.todo))
  }

  lemma WakeupsKept(acts: seq<Action>)
    requires Run(false, acts).Some?
    ensures NoLostWakeup(Run(false, acts).value)
  {
    RunInv(false, acts);
    var s := Run(false, acts).value;
    forall i | 0 <= i < |s.subs| && s.subs[i].pc.Parked?
      ensures !s.subs[i].done && s.subs[i].offset < |s.log| ==> s.subs[i].ready || WillSignal(s, i)
      ensures s.closed ==> s.subs[i].done || (s.lock.Closing? && i in s.lock.todo)
    {
      assert SubOk(false, s, i) && Awake(s, i) && Listed(s, i);
    }
  }

  /** A store that fails in the middle of a batch strands a parked reader: the append is there, the signal never comes. */
  lemma StrandedReader(x: Bytes, y: Bytes) returns (acts: seq<Action>)
    ensures Run(true, acts).Some? && !NoLostWakeup(Run(true, acts).value)
  {
    hide Run;
    acts := [];
    var s := INIT;
    RunNothing(true);
    acts, s := TakeStep(true, acts, s, Subscribe);
    acts, s := TakeStep(true, acts, s, Read(0, StartRead(1)));
    acts, s := TakeStep(true, acts, s, Read(0, Enter));
    acts, s := TakeStep(true, acts, s, Read(0, Check));
    acts, s := TakeStep(true, acts, s, Begin([x, y]));
    acts, s := TakeStep(true, acts, s, AppendOk);
    acts, s := TakeStep(true, acts, s, AppendFail);
    assert s.subs[0].pc == Parked(1) && !s.subs[0].ready && s.lock == Free;
  }

  lemma RunNothing(m: Policy)
    ensures Run(m, []) == Some(INIT)
  {
  }

  lemma TakeStep(m: Policy, acts: seq<Action>, s: State, a: Action) returns (acts': seq<Action>, s': State)
    requires Run(m, acts) == Some(s) && Enabled(m, s, a)
    ensures Run(m, acts') == Some(s') && s' == Apply(m, s, a)
  {
    RunSnoc(m, acts, a);
    acts', s' := acts + [a], Apply(m, s, a);
  }

  /** No wake-up is lost in any run exactly when the store never fails in the middle of a batch. */
  lemma NoLostWakeupIff(m: Policy)
    ensures (forall acts :: Run(m, acts).Some? ==> NoLostWakeup(Run(m, acts).value)) <==> !m
  {
    if m {
      var acts := StrandedReader([], []);
    } else {
      forall acts | Run(m, acts).Some? ensures NoLostWakeup(Run(m, acts).value) {
        WakeupsKept(acts);
      }
    }
  }

  // ---- bounded looping ----

  /**
   A Read enters its critical section at most three times, however many publishers
   race with it and even if the store may fail: the third check always returns.
   */
  lemma BoundedLooping(m: Policy, acts: seq<Action>, i: nat)
    requires Run(m, acts).Some? && i < |Run(m, acts).value.subs|
    ensures var s := Run(m, acts).value; var u := s.subs[i];
            u.entries <= 3
            && (u.pc.Inside? && u.entries == 3 ==> s.lock == Reading(i) && Moved(s, i, Check).pc == Idle)
  {
    RunInv(m, acts);
    var s := Run(m, acts).value;
    assert SubOk(m, s, i);
    if s.subs[i].pc.Inside? && s.subs[i].entries == 3 {
      WindowContinues(s.log, s.subs[i].offset, s.subs[i].pc.max);
    }
  }

  // ---- exactly once, in order ----

  /** All batches a subscription has returned, joined, are the log up to its cursor, each offset being its index. */
  lemma ExactlyOnceInOrder(m: Policy, acts: seq<Action>, i: nat)
    requires Run(m, acts).Some? && i < |Run(m, acts).value.subs|
    ensures var s := Run(m, acts).value; var got := Flatten(s.subs[i].batches);
            s.subs[i].offset <= |s.log| && got == s.log[..s.subs[i].offset]
            && forall k :: 0 <= k < |got| ==> got[k].offset as int == k
  {
    RunInv(m, acts);
    assert SubOk(m, Run(m, acts).value, i);
  }

  /** Any two subscribers have seen the same messages, as far as the slower one has got. */
  lemma HistoriesComparable(m: Policy, acts: seq<Action>, i: nat, j: nat)
    requires Run(m, acts).Some? && i < |Run(m, acts).value.subs| && j < |Run(m, acts).value.subs|
    ensures var s := Run(m, acts).value; var a, b := Flatten(s.subs[i].batches), Flatten(s.subs[j].batches);
            a <= b || b <= a
  {
    ExactlyOnceInOrder(m, acts, i);
    ExactlyOnceInOrder(m, acts, j);
  }

  // ---- publishing ----

  lemma {:induction false} TotalPrefix(calls: seq<Call>, j: nat)
    requires j <= |calls|
    ensures Total(calls[..j]) <= Total(calls)
  {
    if j < |calls| {
      TotalPrefix(calls[..|calls| - 1], j);
      assert calls[..|calls| - 1][..j] == calls[..j];
    } else {
      assert calls[..j] == calls;
    }
  }

  /** While nobody owns the lock, the log is exactly what the finished calls kept, in the order they returned. */
  lemma PublishConservation(m: Policy, acts: seq<Action>)
    requires Run(m, acts).Some? && Run(m, acts).value.lock == Free
    ensures Payloads(Run(m, acts).value.log) == Total(Run(m, acts).value.calls)
  {
    RunInv(m, acts);
  }

  /** A successful non-empty call was told where its own payloads stand in `all`: right behind `before`, up to `upto`. */
  ghost predicate InPlace(c: Call, before: seq<Bytes>, upto: seq<Bytes>, all: seq<Bytes>) {
    c.outcome.Published? && c.payloads != [] ==>
      c.outcome.base == |before| && upto == before + c.payloads && |upto| <= |all|
      && all[c.outcome.base..c.outcome.base + |c.payloads|] == c.payloads
  }

  /**
   Contiguity.  A successful non-empty call's base and length name exactly its own
   payloads, and the ranges of the calls follow each other without gap or overlap.
   */
  lemma PublishContiguity(m: Policy, acts: seq<Action>, j: nat)
    requires Run(m, acts).Some? && j < |Run(m, acts).value.calls|
    ensures var s := Run(m, acts).value;
            InPlace(s.calls[j], Total(s.calls[..j]), Total(s.calls[..j + 1]), Payloads(s.log))
  {
    RunInv(m, acts);
    var s := Run(m, acts).value;
    assert BaseOk(s.calls, j);
    TotalSnoc(s.calls[..j], s.calls[j]);
    assert s.calls[..j] + [s.calls[j]] == s.calls[..j + 1];
    TotalPrefix(s.calls, j + 1);
    PrefixTrans(Total(s.calls[..j + 1]), Total(s.calls), Payloads(s.log));
    PlaceFrom(s.calls[j], Total(s.calls[..j]), Total(s.calls[..j + 1]), Payloads(s.log));
  }

  lemma PlaceFrom(c: Call, before: seq<Bytes>, upto: seq<Bytes>, all: seq<Bytes>)
    requires upto == before + Kept(c) && upto <= all
    requires c.outcome.Published? && c.payloads != [] ==> c.outcome.base == |before|
    ensures InPlace(c, before, upto, all)
  {
    SliceOut(all, before, Kept(c));
  }

  lemma PrefixTrans<T>(a: seq<T>, b: seq<T>, c: seq<T>)
    requires a <= b <= c
    ensures a <= c
  {
  }

  lemma SliceOut<T>(all: seq<T>, pre: seq<T>, mid: seq<T>)
    requires pre + mid <= all
    ensures |pre| + |mid| <= |all| && all[|pre|..|pre| + |mid|] == mid
  {
    assert all[|pre|..|pre| + |mid|] == (pre + mid)[|pre|..];
  }

  /** With a store that never fails a batch half-way, only whole calls show: each call kept all of its payloads or none. */
  lemma {:induction false} AllOrNothing(acts: seq<Action>, j: nat)
    requires Run(false, acts).Some? && j < |Run(false, acts).value.calls|
    ensures var c := Run(false, acts).value.calls[j]; Kept(c) == if c.outcome.Published? then c.payloads else []
    decreases |acts|
  {
    var init, a := acts[..|acts| - 1], acts[|acts| - 1];
    var s := Run(false, init).value;
    RunInv(false, init);
    StepExtends(false, s, a);
    if j < |s.calls| {
      AllOrNothing(init, j);
    }
  }

  /** Once a partition is closed, every call that still returns was rejected and left nothing. */
  lemma {:induction false} RejectedOnceClosed(m: Policy, acts: seq<Action>, more: seq<Action>, j: nat)
    requires Run(m, acts + more).Some? && Run(m, acts).Some? && Run(m, acts).value.closed
    requires |Run(m, acts).value.calls| <= j < |Run(m, acts + more).value.calls|
    ensures Run(m, acts + more).value.calls[j].outcome == Rejected
  {
    assert more == [] ==> acts + more == acts;
    if more != [] {
      var init, a := more[..|more| - 1], more[|more| - 1];
      assert acts + more == (acts + init) + [a];
      RunSnoc(m, acts + init, a);
      RunExtends(m, acts, init);
      RunInv(m, acts + init);
      var s := Run(m, acts + init).value;
      StepExtends(m, s, a);
      if j < |s.calls| {
        RejectedOnceClosed(m, acts, init, j);
      }
    }
  }

  // ---- closing once ----

  /**
   No order of closes ever closes a `done` twice.  Outside critical sections a
   subscription is in the set exactly while its `done` is open, and a closed partition
   has no subscriptions.
   */
  lemma CloseOnce(m: Policy, acts: seq<Action>, i: nat)
    requires Run(m, acts).Some? && i < |Run(m, acts).value.subs|
    ensures var s := Run(m, acts).value;
            !s.panicked
            && (s.lock == Free ==> (i in s.live <==> !s.subs[i].done))
            && (s.closed && !s.lock.Closing? ==> s.live == {} && s.subs[i].done)
  {
    RunInv(m, acts);
    assert SubOk(m, Run(m, acts).value, i);
  }
}
