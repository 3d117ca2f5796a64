/**
 The objects of broker/partition.go and broker/subscription.go.  A partition keeps,
 as a ghost, the kernel state it is in and the steps that led there; every statement
 that touches shared state is one kernel step, so whatever these methods do is a run
 of the kernel and everything proved about runs holds for the objects.
 */
module Partitions {
  import opened Words
  import opened Store
  import opened Kernel
  import Broadcast

  class Subscription {
    const partition: Partition
    ghost const id: nat
    var offset: int64
    var ready: bool
    var done: bool

    constructor (p: Partition, ghost i: nat)
      ensures partition == p && id == i && offset == 0 && !ready && !done
    {
      partition := p;
      id := i;
      offset, ready, done := 0, false, false;
    }

    ghost function Look(): Seen
      reads this, partition, partition.store
    {
      Seen(partition.store.msgs, partition.closed, done)
    }

    /** This object and the kernel's subscription agree. */
    ghost predicate Matches(u: Sub)
      reads this
    {
      offset as int == u.offset && ready == u.ready && done == u.done
    }

    /** The critical section of Read: closed comes first, then data, and the cursor moves under the same lock. */
    method Attempt(most: int64) returns (r: Option<Result<seq<Msg>>>)
      requires Whole(partition) && this in partition.everyone && partition.Pc(id) == Some(Want(most as int))
      modifies partition`k, partition`trace, this`offset
      ensures Whole(partition) && id < |partition.k.subs| == |old(partition.k.subs)|
      ensures done || partition.closed ==> r == Some(Err(Closed))
      ensures r.Some? && r.value.Ok? ==>
                !done && !partition.closed && NextBatch(r.value.value, old(offset), offset, most, partition.store.msgs)
      ensures r == None ==> offset as int >= |partition.store.msgs| && partition.k.subs[id].pc == Parked(most as int)
                            && partition.k.subs[id].entries == old(partition.k.subs[id].entries) + 1 <= 2
      ensures (r == None || r.value.Err?) ==> offset == old(offset)
      ensures r.Some? && r.value.Err? ==> r == Some(Err(Closed)) && (done || partition.closed)
      ensures r.Some? ==> partition.k.subs[id].pc == Idle
      ensures partition.k.subs[id].batches == old(partition.k.subs[id].batches)
                                              + if r.Some? && r.value.Ok? then [r.value.value] else []
    {
      hide Run, Window, Locked, Whole;
      EnterSection(most);
      if done || partition.closed {
        LeaveSection(most);
        return Some(Err(Closed));
      }
      WindowContinues(partition.store.msgs, offset as int, most as int);
      var msgs := partition.store.Read(offset, most);
      if msgs != null {
        var batch := msgs[..];
        Deliver(batch, most);
        return Some(Ok(batch));
      }
      LeaveSection(most);
      r := None;
    }

    /** Read takes the lock. */
    ghost method EnterSection(most: int64)
      requires Whole(partition) && this in partition.everyone && partition.Pc(id) == Some(Want(most as int))
      modifies partition`k, partition`trace
      ensures Locked(partition) && InSection(most) && |partition.k.subs| == |old(partition.k.subs)|
      ensures partition.k.subs[id] == old(partition.k.subs[id]).(pc := Inside(most as int),
                                                                 entries := old(partition.k.subs[id].entries) + 1)
    {
      hide Run;
      partition.AboutSub(id);
      partition.Step(id, Enter);
    }

    /** This reader owns the lock, and its cursor is in the log. */
    ghost predicate InSection(most: int64)
      reads this, partition, partition.store
    {
      this in partition.everyone && id < |partition.k.subs| && partition.k.lock == Reading(id)
      && partition.k.subs[id].pc == Inside(most as int) && most > 0
      && 0 <= offset as int <= |partition.store.msgs| <= MAX_INT64 && IsLog(partition.store.msgs)
    }

    /** Read gives the lock back with nothing to return: to wait when it may, or because of a close. */
    ghost method LeaveSection(most: int64)
      requires Locked(partition) && InSection(most)
      requires done || partition.closed || Window(partition.store.msgs, offset as int, most as int) == []
      modifies partition`k, partition`trace
      ensures Whole(partition) && |partition.k.subs| == |old(partition.k.subs)|
      ensures partition.k.subs[id] == old(partition.k.subs[id]).(
                                        pc := if done || partition.closed then Idle else Parked(most as int))
      ensures !done && !partition.closed ==> partition.k.subs[id].entries <= 2
    {
      hide Run, Window;
      partition.Step(id, Check);
      partition.AboutSub(id);
    }

    /** Move the cursor behind the last message of the batch read (subscription.go:55). */
    method Deliver(batch: seq<Msg>, most: int64)
      requires Locked(partition) && InSection(most) && !done && !partition.closed
      requires batch != [] && batch == Window(partition.store.msgs, offset as int, most as int)
      modifies partition`k, partition`trace, this`offset
      ensures Whole(partition) && NextBatch(batch, old(offset), offset, most, partition.store.msgs)
      ensures partition.k.subs == old(partition.k.subs)[id := old(partition.k.subs[id]).(pc := Idle, offset := offset as int,
                                                            batches := old(partition.k.subs[id].batches) + [batch])]
    {
      hide Run;
      WindowContinues(partition.store.msgs, offset as int, most as int);
      offset := batch[|batch| - 1].offset + 1;
      partition.Step(id, Check);
    }

    /**
     Read.  The loop needs no outside measure: the kernel bounds how often one call can
     enter its critical section, so `for {}` runs at most three times.  Before it takes the
     lock, and while it waits, others work on the partition as `o` allows.  None: it is still
     waiting when we stop watching, and then there is nothing to return.
     */
    method Read(max: int64, o: Others) returns (r: Option<Result<seq<Msg>>>)
      requires partition.Valid() && this in partition.everyone && partition.k.subs[id].pc == Idle
      modifies partition, partition.store, partition.everyone
      ensures partition.Valid() && this in partition.everyone && fresh(partition.everyone - old(partition.everyone))
      ensures partition.k.subs[id].pc == if r.Some? then Idle else Parked(if max <= 0 then 1 else max as int)
      ensures Apart(o, old(Look()), Look())
      ensures r.Some? && r.value.Ok? ==>
                NextBatch(r.value.value, old(offset), offset, if max <= 0 then 1 else max, partition.store.msgs)
      ensures r.Some? && r.value.Err? ==>
                (r.value.error == Cancelled && o.cancel) || (r.value.error == Closed && (done || partition.closed))
      ensures r.None? || r.value.Err? ==> offset == old(offset)
      ensures r == None ==> !done && !partition.closed && !o.cancel && offset as int >= |partition.store.msgs|
      ensures old(done) || old(partition.closed) ==> r == Some(Err(Closed))
      ensures old(offset) as int < |old(partition.store.msgs)| ==> r.Some? && (r.value.Ok? || r.value.error == Closed)
      ensures partition.k.subs[id].batches == old(partition.k.subs[id].batches)
                                              + if r.Some? && r.value.Ok? then [r.value.value] else []
    {
      hide Run, Whole, NextBatch;
      var most, p := if max <= 0 then 1 else max, partition;
      Begin(max);
      p.Meanwhile(this, o);
      while true
        invariant Whole(p) && this in p.everyone && fresh(p.everyone - old(p.everyone))
        invariant p.Pc(id) == Some(Want(most as int)) && offset == old(offset)
        invariant p.k.subs[id].batches == old(p.k.subs[id].batches) && p.k.subs[id].entries <= 2
        invariant Apart(o, old(Look()), Look())
        invariant p.k.subs[id].entries > 0 ==>
                    !old(done) && !old(p.closed) && old(offset) as int >= |old(p.store.msgs)|
        decreases 3 - p.k.subs[id].entries
      {
        ghost var before := Look();
        var round := Round(most, o);
        ApartOn(o, old(Look()), before, Look());
        if !round.Again? {
          WholeIsValid(p);
          return if round.Blocked? then None else Some(round.r);
        }
      }
    }

    /** Once around the loop: the critical section, the wait, and whatever others do before the next one. */
    method Round(most: int64, o: Others) returns (round: Round)
      requires Whole(partition) && this in partition.everyone && partition.Pc(id) == Some(Want(most as int))
      modifies partition, partition.store, partition.everyone
      ensures Whole(partition) && this in partition.everyone && fresh(partition.everyone - old(partition.everyone))
      ensures Apart(o, old(Look()), Look())
      ensures id < |partition.k.subs|
      ensures partition.k.subs[id].pc == match round { case Again => Want(most as int)
                                                       case Blocked => Parked(most as int)
                                                       case Back(_) => Idle }
      ensures round.Again? ==> partition.k.subs[id].entries == old(partition.k.subs[id].entries) + 1 <= 2
      ensures round.Back? && round.r.Ok? ==> NextBatch(round.r.value, old(offset), offset, most, partition.store.msgs)
      ensures (round.Back? && round.r.Ok?) || offset == old(offset)
      ensures round.Back? && round.r.Err? ==>
                (round.r.error == Cancelled && o.cancel) || (round.r.error == Closed && (done || partition.closed))
      ensures round.Blocked? ==> !done && !partition.closed && !o.cancel && offset as int >= |partition.store.msgs|
      ensures old(done) || old(partition.closed) ==> round == Back(Err(Closed))
      ensures (round.Back? && (round.r.Ok? || round.r.error == Closed))
              || (!old(done) && !old(partition.closed) && old(offset) as int >= |old(partition.store.msgs)|)
      ensures partition.k.subs[id].batches == old(partition.k.subs[id].batches)
                                              + if round.Back? && round.r.Ok? then [round.r.value] else []
    {
      hide Run, Whole, NextBatch;
      var attempt := Attempt(most);
      if attempt.Some? {
        return Back(attempt.value);
      }
      var wake := partition.Await(this, o);
      if wake == None {
        return Blocked;
      } else if wake.value == ByDone {
        return Back(Err(Closed));
      } else if wake.value == ByContext {
        return Back(Err(Cancelled));
      }
      partition.Meanwhile(this, o);
      round := Again;
    }

    /** Read is entered. */
    ghost method Begin(max: int64)
      requires partition.Valid() && this in partition.everyone && partition.k.subs[id].pc == Idle
      modifies partition`k, partition`trace
      ensures Whole(partition) && partition.Pc(id) == Some(Want(if max <= 0 then 1 else max as int))
      ensures partition.k.subs[id].entries == 0 && partition.k.subs[id].batches == old(partition.k.subs[id].batches)
    {
      hide Run;
      partition.Step(id, StartRead(max as int));
    }
  }

  /** A valid partition, as a fact to pass on without looking inside. */
  ghost predicate Whole(p: Partition)
    reads p, p.store, p.everyone
  {
    p.Valid()
  }

  lemma WholeIsValid(p: Partition)
    ensures Whole(p) <==> p.Valid()
  {
  }

  /** A partition in the middle of a critical section, as a fact to pass on without looking inside. */
  ghost predicate Locked(p: Partition)
    reads p, p.store, p.everyone
  {
    p.Coupled()
  }

  ghost function Ids(ss: set<Subscription>): set<nat> {
    set s | s in ss :: s.id
  }

  lemma IdsMinus(ss: set<Subscription>, s: Subscription)
    requires s in ss && forall t :: t in ss && t.id == s.id ==> t == s
    ensures Ids(ss - {s}) == Ids(ss) - {s.id}
  {
  }

  /**
   `batch` is the stretch of the log between two positions of the cursor: not empty, at most
   `most` long, and shorter only where the log ends.
   */
  ghost predicate NextBatch(batch: seq<Msg>, from: int64, to: int64, most: int64, log: seq<Msg>) {
    0 <= from < to && to as int <= |log| && batch == log[from..to]
    && to - from <= most && (to - from < most ==> to as int == |log|)
  }

  datatype WakeUp = ByReady | ByDone | ByContext

  /** How one round of Read's loop ends: with another one, still waiting, or with what Read returns. */
  datatype Round = Again | Blocked | Back(r: Result<seq<Msg>>)

  /**
   What others do while a call is outside the lock, if they do anything: publish, subscribe,
   unsubscribe (this subscription, too), close the partition, cancel this call's context.
   */
  datatype Others = Others(publish: bool, join: bool, leave: bool, close: bool, cancel: bool)

  /** What a call sees of what others may change. */
  datatype Seen = Seen(log: seq<Msg>, closed: bool, done: bool)

  /** What they have left of it: the log grows, closing is for good, and what they may not do has not happened. */
  ghost predicate Apart(o: Others, s: Seen, t: Seen) {
    s.log <= t.log && (s.closed ==> t.closed) && (s.done ==> t.done)
    && (!o.publish ==> t.log == s.log) && (!o.close ==> t.closed == s.closed) && (!o.leave && !o.close ==> t.done == s.done)
  }

  lemma ApartOn(o: Others, s: Seen, t: Seen, u: Seen)
    requires Apart(o, s, t) && Apart(o, t, u)
    ensures Apart(o, s, u)
  {
  }

  class Partition {
    const store: MemoryLog
    var subs: set<Subscription>
    var closed: bool

    ghost var all: seq<Subscription>
    ghost var everyone: set<Subscription>
    ghost var trace: seq<Action>
    ghost var k: State

    constructor (backend: MemoryLog)
      requires backend.Valid() && backend.msgs == []
      ensures Valid() && store == backend && all == [] && !closed && k == INIT
    {
      store := backend;
      subs, closed, all, everyone, trace, k := {}, false, [], {}, [], INIT;
    }

    /** The fields are those of the kernel state `k`, which the steps `trace` lead to. */
    ghost predicate Coupled()
      reads this, store, everyone
    {
      Run(false, trace) == Some(k) && store.Valid() && store.msgs == k.log && closed == k.closed
      && |all| == |k.subs|
      && subs <= everyone && (forall s :: s in everyone ==> s.id < |all| && all[s.id] == s)
      && forall i :: 0 <= i < |all| ==>
           all[i] in everyone && all[i].partition == this && all[i].id == i && all[i].Matches(k.subs[i])
           && (all[i] in subs <==> i in k.live)
    }

    ghost predicate Valid()
      reads this, store, everyone
    {
      Coupled() && k.lock == Free
    }

    /** Where the reader of subscription `i` is. */
    ghost function Pc(i: nat): Option<Pc>
      reads this
    {
      if i < |k.subs| then Some(k.subs[i].pc) else None
    }

    /** Advance the ghost by one kernel step; the fields are changed around it. */
    ghost method Do(a: Action)
      requires Run(false, trace) == Some(k) && Enabled(false, k, a)
      modifies this`k, this`trace
      ensures Run(false, trace) == Some(k) && k == Apply(false, old(k), a)
    {
      Broadcast.RunSnoc(false, trace, a);
      trace := trace + [a];
      k := Apply(false, k, a);
    }

    /** A kernel step of one reader. */
    ghost method Step(i: nat, move: ReadMove)
      requires Run(false, trace) == Some(k) && i < |k.subs| && CanRead(k, i, move)
      modifies this`k, this`trace
      ensures Run(false, trace) == Some(k)
      ensures k == old(k).(subs := old(k).subs[i := Moved(old(k), i, move)],
                           lock := if move == Enter then Reading(i) else if move == Check then Free else old(k).lock)
    {
      Do(Kernel.Read(i, move));
    }

    /** What the kernel's invariant says about one subscription here. */
    lemma AboutSub(i: nat)
      requires Run(false, trace) == Some(k) && i < |k.subs|
      ensures Listed(k, i) && Bounded(k, i) && k.subs[i].offset <= |k.log|
    {
      RunInv(false, trace);
      assert SubOk(false, k, i);
    }

    lemma AboutLive()
      requires Run(false, trace) == Some(k)
      ensures forall i :: i in k.live ==> i < |k.subs|
      ensures k.closed && !k.lock.Closing? ==> k.live == {}
    {
      RunInv(false, trace);
    }

    /** The non-blocking send: afterwards the token is there, whether or not it was before. */
    method SignalOne(s: Subscription)
      requires Locked(this) && s in subs && k.lock.Signalling? && s.id in k.lock.todo
      modifies this`k, this`trace, s`ready
      ensures Locked(this) && s.ready && s.id < |old(k).subs| && k == Signalled(old(k), s.id)
    {
      hide Run;
      s.ready := true;
      Do(Signal(s.id));
    }

    /** The kernel state after one signal. */
    ghost static function Signalled(s: State, i: nat): State
      requires s.lock.Signalling? && i < |s.subs|
    {
      s.(subs := s.subs[i := s.subs[i].(ready := true)],
         lock := Lock.Signalling(s.lock.base, s.lock.payloads, s.lock.todo - {i}))
    }

    /** The subscriptions in the set are those the kernel has as live, each once. */
    lemma LiveIds()
      requires Locked(this)
      ensures Ids(subs) == k.live && subs <= everyone && closed == k.closed
      ensures forall s, t :: s in subs && t in subs && s.id == t.id ==> s == t
    {
      hide Run;
      AboutLive();
      forall i | i in k.live ensures i in Ids(subs) {
        assert all[i] in subs && all[i].id == i;
      }
    }

    /** A call to publish takes the lock, or returns at once. */
    ghost method BeginCall(payloads: seq<Bytes>)
      requires Whole(this)
      modifies this`k, this`trace
      ensures k == Apply(false, old(k), Begin(payloads)) && k.closed == closed && old(k).lock == Free
      ensures if closed || payloads == [] then Whole(this) else Locked(this)
    {
      hide Run;
      Do(Begin(payloads));
    }

    /** The call has signalled everyone and gives the lock back. */
    ghost method EndCall()
      requires Locked(this) && k.lock.Signalling? && k.lock.todo == {}
      modifies this`k, this`trace
      ensures Whole(this) && k == Apply(false, old(k), EndPublish)
    {
      hide Run;
      Do(EndPublish);
    }

    /** Append the next message of the call that owns the lock. */
    method AppendNext(payload: Bytes) returns (off: int64)
      requires Locked(this) && k.lock.Appending? && k.lock.k < |k.lock.payloads| && payload == k.lock.payloads[k.lock.k]
      requires |store.msgs| < MAX_INT64
      modifies this`k, this`trace, store
      ensures Locked(this) && off as int == |old(store.msgs)| && store.msgs == old(store.msgs) + [Msg(off, payload)]
      ensures k == AfterAppend(old(k), off, payload)
    {
      hide Run;
      off := store.Append(payload);
      Do(AppendOk);
    }

    /** The kernel state after one append. */
    ghost static function AfterAppend(s: State, off: int64, payload: Bytes): State
      requires s.lock.Appending? && off >= 0
    {
      var base := if s.lock.k == 0 then off as int else s.lock.base;
      s.(log := s.log + [Msg(off, payload)],
         lock := if s.lock.k + 1 < |s.lock.payloads| then Appending(base, s.lock.payloads, s.lock.k + 1)
                 else Lock.Signalling(base, s.lock.payloads, s.live))
    }

    /** The signal loop: one non-blocking send to every live subscriber, in any order. */
    method Announce()
      requires Locked(this) && k.lock.Signalling? && k.lock.todo == k.live
      modifies this`k, this`trace, everyone
      ensures Locked(this) && k.lock == Lock.Signalling(old(k.lock).base, old(k.lock).payloads, {})
      ensures forall s :: s in subs ==> s.ready
      ensures k == old(k).(subs := k.subs, lock := k.lock) && OnlySignalled(old(k))
    {
      hide Run, Locked;
      var todo := subs;
      LiveIds();
      while todo != {}
        invariant Locked(this) && k == old(k).(subs := k.subs, lock := k.lock)
        invariant k.lock == Lock.Signalling(old(k.lock).base, old(k.lock).payloads, Ids(todo))
        invariant todo <= subs && forall s :: s in subs && s !in todo ==> s.ready
        invariant OnlySignalled(old(k))
      {
        var s :| s in todo;
        IdsMinus(todo, s);
        SignalOne(s);
        todo := todo - {s};
      }
    }

    /** Besides the log and the finished calls, only `ready` tokens have been added. */
    ghost predicate OnlySignalled(before: State)
      reads this
    {
      |k.subs| == |before.subs| && k.closed == before.closed && k.live == before.live
      && forall i :: 0 <= i < |k.subs| ==> k.subs[i] == before.subs[i].(ready := k.subs[i].ready)
    }

    /** Publish: one message, under one lock acquisition. */
    method Publish(payload: Bytes) returns (r: Result<int64>)
      requires Valid() && |store.msgs| < MAX_INT64
      modifies this`k, this`trace, store, everyone
      ensures Valid() && k.calls == old(k.calls) + [Call([payload], if closed then Rejected else Published(|old(store.msgs)|))]
      ensures closed ==> r == Err(Closed) && store.msgs == old(store.msgs)
      ensures !closed ==> r.Ok? && r.value as int == |old(store.msgs)|
                          && store.msgs == old(store.msgs) + [Msg(r.value, payload)]
                          && forall s :: s in subs ==> s.ready
      ensures OnlySignalled(old(k))
    {
      hide Run, Locked, Whole;
      WholeIsValid(this);
      BeginCall([payload]);
      if closed {
        WholeIsValid(this);
        return Err(Closed);
      }
      var off := AppendNext(payload);
      Announce();
      EndCall();
      WholeIsValid(this);
      r := Ok(off);
    }

    /** PublishBatch: the whole batch under one lock acquisition, contiguous, one signal loop at the end. */
    method PublishBatch(payloads: seq<Bytes>) returns (r: Result<int64>)
      requires Valid() && |store.msgs| + |payloads| <= MAX_INT64
      modifies this`k, this`trace, store, everyone
      ensures Valid()
      ensures k.calls == old(k.calls) + [Call(payloads, if closed then Rejected
                                                        else Published(if payloads == [] then 0 else |old(store.msgs)|))]
      ensures closed ==> r == Err(Closed) && store.msgs == old(store.msgs)
      ensures !closed && payloads == [] ==> r == Ok(0) && store.msgs == old(store.msgs)
      ensures !closed && payloads != [] ==>
                r.Ok? && r.value as int == |old(store.msgs)|
                && Payloads(store.msgs) == Payloads(old(store.msgs)) + payloads && old(store.msgs) <= store.msgs
                && forall s :: s in subs ==> s.ready
      ensures OnlySignalled(old(k))
    {
      hide Run, Locked, Whole;
      WholeIsValid(this);
      BeginCall(payloads);
      WholeIsValid(this);
      if closed {
        return Err(Closed);
      }
      if |payloads| == 0 {
        return Ok(0);
      }
      var base := AppendAll(payloads);
      Announce();
      EndCall();
      WholeIsValid(this);
      r := Ok(base);
    }

    /** The loop of PublishBatch. */
    method AppendAll(payloads: seq<Bytes>) returns (base: int64)
      requires Locked(this) && payloads != [] && k.lock == Appending(0, payloads, 0)
      requires |store.msgs| + |payloads| <= MAX_INT64
      modifies this`k, this`trace, store
      ensures Locked(this) && base as int == |old(store.msgs)| && old(store.msgs) <= store.msgs
      ensures Payloads(store.msgs) == Payloads(old(store.msgs)) + payloads
      ensures k == old(k).(log := k.log, lock := Lock.Signalling(base as int, payloads, k.live))
    {
      hide Run, Locked;
      base := 0;
      for i := 0 to |payloads|
        invariant Locked(this) && k == old(k).(log := k.log, lock := k.lock)
        invariant |store.msgs| == |old(store.msgs)| + i && old(store.msgs) <= store.msgs
        invariant Payloads(store.msgs) == Payloads(old(store.msgs)) + payloads[..i]
        invariant i > 0 ==> base as int == |old(store.msgs)|
        invariant k.lock == if i == 0 then Appending(0, payloads, 0)
                            else if i < |payloads| then Appending(base as int, payloads, i)
                            else Lock.Signalling(base as int, payloads, k.live)
      {
        ghost var before := store.msgs;
        var off := AppendNext(payloads[i]);
        if i == 0 {
          base := off;
        }
        assert payloads[..i + 1] == payloads[..i] + [payloads[i]];
        assert Payloads(store.msgs) == Payloads(before) + [payloads[i]];
      }
      assert payloads[..|payloads|] == payloads;
    }

    /** Subscribe: a new subscription from offset 0. */
    method Subscribe() returns (r: Result<Subscription>)
      requires Valid()
      modifies this
      ensures Valid() && old(all) <= all && closed == old(closed)
      ensures closed ==> r == Err(Closed) && all == old(all) && everyone == old(everyone) && subs == old(subs)
      ensures !closed ==> r.Ok? && fresh(r.value) && all == old(all) + [r.value] && subs == old(subs) + {r.value}
                          && r.value.offset == 0 && k.subs[r.value.id].pc == Idle && k.subs[r.value.id].batches == []
                          && r.value.partition == this
                          && everyone == old(everyone) + {r.value}
      ensures forall i :: 0 <= i < |old(k.subs)| ==> k.subs[i] == old(k.subs)[i]
    {
      hide Run;
      AboutLive();
      if closed {
        Do(Kernel.Subscribe);
        return Err(Closed);
      }
      var s := new Subscription(this, |all|);
      subs := subs + {s};
      all, everyone := all + [s], everyone + {s};
      Do(Kernel.Subscribe);
      r := Ok(s);
    }

    /** unsubscribe: remove first, then close `done`; never a second close. */
    method Unsubscribe(s: Subscription)
      requires Valid() && s in everyone
      modifies this`subs, this`k, this`trace, s
      ensures Valid() && subs == old(subs) - {s} && s.done && s.offset == old(s.offset) && s.ready == old(s.ready)
      ensures k == old(k).(subs := old(k).subs[s.id := old(k.subs)[s.id].(done := true)], live := k.live)
    {
      hide Run;
      AboutSub(s.id);
      Do(DropBegin(s.id));
      if s in subs {
        subs := subs - {s};
        assert !s.done;
        s.done := true;
        Do(DropEnd);
      }
    }

    /** close: everybody out, each `done` closed once. */
    method Close()
      requires Valid()
      modifies this`subs, this`closed, this`k, this`trace, everyone
      ensures Valid() && closed && subs == {} && forall s :: s in everyone ==> s.done
      ensures |k.subs| == |old(k.subs)|
      ensures forall i :: 0 <= i < |k.subs| ==> k.subs[i] == old(k.subs[i]).(done := k.subs[i].done)
    {
      hide Run;
      AboutLive();
      Do(CloseBegin);
      if !closed {
        closed := true;
        CloseAll();
      }
      AboutLive();
      forall i | 0 <= i < |all| ensures all[i].done {
        AboutSub(i);
      }
    }

    /** close(s.done), then delete; `done` was still open. */
    method ShutOne(s: Subscription)
      requires Coupled() && s in subs && k.lock == Lock.Closing(k.live, None)
      modifies this`subs, this`k, this`trace, s`done
      ensures Coupled() && subs == old(subs) - {s} && k.lock == Lock.Closing(k.live, None) && k.live == old(k.live) - {s.id}
      ensures k.subs == old(k.subs)[s.id := old(k.subs)[s.id].(done := true)] && k.closed == old(k.closed)
    {
      hide Run;
      AboutSub(s.id);
      assert !s.done;
      s.done := true;
      Do(CloseOne(s.id));
      subs := subs - {s};
      Do(CloseDelete);
    }

    /** The loop of close: close one `done`, delete that subscriber, and so on in any order. */
    method CloseAll()
      requires Coupled() && k.lock == Lock.Closing(k.live, None)
      modifies this`subs, this`k, this`trace, everyone
      ensures Valid() && subs == {} && k.closed == old(k.closed) && |k.subs| == |old(k.subs)|
      ensures forall i :: 0 <= i < |k.subs| ==> k.subs[i] == old(k.subs[i]).(done := k.subs[i].done)
    {
      hide Run;
      while subs != {}
        invariant Coupled() && k.lock == Lock.Closing(k.live, None) && k.closed == old(k.closed)
        invariant |k.subs| == |old(k.subs)|
        invariant forall i :: 0 <= i < |k.subs| ==> k.subs[i] == old(k.subs[i]).(done := k.subs[i].done)
        decreases subs
      {
        var s :| s in subs;
        ShutOne(s);
      }
      AboutLive();
      assert k.live == {};
      Do(CloseEnd);
    }

    /**
     A parked reader: meanwhile others work on the partition; then one of the channels of
     its `select` that can be received from is.  None: there is none, so it is still waiting.
     */
    method Await(s: Subscription, o: Others) returns (wake: Option<WakeUp>)
      requires Whole(this) && s in everyone && s.partition == this && s.id < |k.subs| && k.subs[s.id].pc.Parked?
      modifies this, store, everyone
      ensures Whole(this) && s in everyone && s.id < |k.subs| && fresh(everyone - old(everyone))
      ensures Apart(o, old(s.Look()), s.Look())
      ensures s.offset == old(s.offset) && k.subs[s.id].batches == old(k.subs[s.id].batches)
      ensures Woken(s, wake, o.cancel, old(k.subs[s.id]))
    {
      hide Run;
      Meanwhile(s, o);
      wake := Select(s, o.cancel);
    }

    /** How the `select` of a parked reader ended: for a channel that could be received from, or not at all for want of one. */
    ghost predicate Woken(s: Subscription, wake: Option<WakeUp>, cancelled: bool, u: Sub)
      requires u.pc.Parked?
      reads this, s, store
    {
      s.id < |k.subs|
      && match wake {
        case None =>
          k.subs[s.id].pc == u.pc && !cancelled && !s.done && !closed && s.offset as int >= |store.msgs|
        case Some(ByReady) => k.subs[s.id].pc == Want(u.pc.max) && k.subs[s.id].entries == u.entries
        case Some(ByDone) => k.subs[s.id].pc == Idle && s.done
        case Some(ByContext) => k.subs[s.id].pc == Idle && cancelled
      }
    }

    /** Others act, any number of times, while the reader of `s` is outside the lock. */
    method Meanwhile(s: Subscription, o: Others)
      requires Whole(this) && s in everyone && s.partition == this && s.id < |k.subs|
      modifies this, store, everyone
      ensures Whole(this) && s in everyone && s.id < |k.subs|
      ensures fresh(everyone - old(everyone)) && s.offset == old(s.offset)
      ensures Apart(o, old(s.Look()), s.Look())
      ensures k.subs[s.id] == old(k.subs[s.id]).(ready := k.subs[s.id].ready, done := k.subs[s.id].done)
    {
      hide Run;
      var rounds: int := *;
      while rounds > 0
        invariant fresh(everyone - old(everyone))
        invariant Valid() && old(all) <= all && s.offset == old(s.offset)
        invariant Apart(o, old(s.Look()), s.Look())
        invariant k.subs[s.id] == old(k.subs[s.id]).(ready := k.subs[s.id].ready, done := k.subs[s.id].done)
      {
        Interfere(o);
        rounds := rounds - 1;
      }
    }

    /** The `select` of Read: one of the channels that can be received from, chosen arbitrarily. */
    method Select(s: Subscription, cancelled: bool) returns (wake: Option<WakeUp>)
      requires Valid() && s in everyone && k.subs[s.id].pc.Parked?
      modifies this`k, this`trace, s`ready
      ensures Valid() && |k.subs| == |old(k.subs)| && k.subs[s.id].batches == old(k.subs[s.id].batches)
      ensures Woken(s, wake, cancelled, old(k.subs[s.id]))
      ensures wake == None ==> !old(s.ready)
    {
      hide Run;
      NothingToDo(s);
      var first: WakeUp := *;
      if s.ready && (first == ByReady || (!s.done && !cancelled)) {
        TakeToken(s);
        wake := Some(ByReady);
      } else if s.done && (first != ByContext || !cancelled) {
        Step(s.id, Kernel.WakeDone);
        wake := Some(ByDone);
      } else if cancelled {
        Step(s.id, Cancel);
        wake := Some(ByContext);
      } else {
        wake := None;
      }
    }

    method TakeToken(s: Subscription)
      requires Valid() && s in everyone && k.subs[s.id].pc.Parked? && s.ready
      modifies this`k, this`trace, s`ready
      ensures Valid() && k == old(k).(subs := k.subs)
      ensures k.subs == old(k).subs[s.id := old(k).subs[s.id].(ready := false, pc := Want(old(k).subs[s.id].pc.max))]
    {
      hide Run;
      s.ready := false;
      Step(s.id, Wake);
    }

    /** No wake-up is lost: a parked reader without token and `done` has nothing to do. */
    lemma NothingToDo(s: Subscription)
      requires Valid() && s in everyone && k.subs[s.id].pc.Parked?
      ensures !s.ready && !s.done ==> !closed && s.offset as int >= |store.msgs|
    {
      hide Run;
      Broadcast.WakeupsKept(trace);
    }

    /** Some other goroutine runs one operation, if it may. */
    method Interfere(o: Others)
      requires Valid()
      modifies this, store, everyone
      ensures Valid() && old(all) <= all && fresh(everyone - old(everyone))
      ensures old(store.msgs) <= store.msgs && (!o.publish ==> store.msgs == old(store.msgs))
      ensures (old(closed) ==> closed) && (!o.close ==> closed == old(closed))
      ensures forall i :: 0 <= i < |old(k.subs)| ==>
                k.subs[i] == old(k.subs)[i].(ready := k.subs[i].ready, done := k.subs[i].done)
                && (old(k.subs)[i].done ==> k.subs[i].done)
                && (!o.leave && !o.close ==> k.subs[i].done == old(k.subs)[i].done)
    {
      hide Run;
      var what: int := *;
      if what == 0 && o.publish {
        var payloads: seq<Bytes> := *;
        if |store.msgs| + |payloads| <= MAX_INT64 {
          var r := PublishBatch(payloads);
        }
      } else if what == 1 && o.join {
        var r := Subscribe();
      } else if what == 2 && o.leave {
        if subs != {} {
          var s :| s in subs;
          Unsubscribe(s);
        }
      } else if what == 3 && o.close {
        Close();
      }
    }
  }
}
