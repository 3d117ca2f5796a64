/**
 The broker (broker/broker.go) as a step system over its partitions: topics are
 created and looked up under the broker lock, a looked-up topic may be used at any
 later time, and Close holds the broker lock while it closes one partition after the
 other.  Each partition is a kernel and remembers its own run.
 */
module Brokers {
  import opened Words
  import opened Store
  import opened Kernel
  import opened Names
  import Broadcast

  /** A partition ever created: its topic's name, its state and the steps that led there. */
  datatype Part = Part(name: Bytes, k: State, trace: seq<Action>)

  /** Close runs once; while it runs it owns the broker lock. */
  datatype Closer = NotStarted | Running(todo: set<nat>, current: Option<nat>) | Returned

  datatype Broker = Broker(parts: seq<Part>, topics: map<Bytes, nat>, closed: bool, closer: Closer, handles: set<nat>)

  datatype Config = Config(midBatch: Policy, maxTopics: int)

  datatype Step =
    | Create(name: Bytes)
    | Lookup(name: Bytes)
    | Within(i: nat, a: Action)
    | CloseStart
    | ClosePart(i: nat)
    | ClosePartEnd
    | CloseReturn

  const NEW := Broker([], map[], false, NotStarted, {})

  /** Steps of a partition that start a broker call, and so need a looked-up topic. */
  predicate NeedsHandle(a: Action) {
    a.Begin? || a.Subscribe?
  }

  predicate Can(c: Config, b: Broker, step: Step) {
    match step
    case Create(_) => !b.closer.Running?
    case Lookup(_) => !b.closer.Running?
    case Within(i, a) =>
      i < |b.parts| && Enabled(c.midBatch, b.parts[i].k, a) && (NeedsHandle(a) ==> i in b.handles)
      && !a.CloseBegin? && !a.CloseEnd?
    case CloseStart => !b.closer.Running?
    case ClosePart(i) =>
      b.closer.Running? && b.closer.current == None && i in b.closer.todo && i < |b.parts|
      && Enabled(c.midBatch, b.parts[i].k, CloseBegin)
    case ClosePartEnd =>
      b.closer.Running? && b.closer.current.Some? && b.closer.current.value < |b.parts|
      && Enabled(c.midBatch, b.parts[b.closer.current.value].k, CloseEnd)
    case CloseReturn => b.closer == Running({}, None)
  }

  function Advance(m: Policy, p: Part, a: Action): (p': Part)
    requires Enabled(m, p.k, a)
    ensures p'.name == p.name
  {
    p.(k := Apply(m, p.k, a), trace := p.trace + [a])
  }

  function Do(c: Config, b: Broker, step: Step): Broker
    requires Can(c, b, step)
  {
    match step
    case Create(name) =>
      if b.closed || !ValidName(name) || name in b.topics || (c.maxTopics > 0 && |b.topics| >= c.maxTopics) then b
      else b.(parts := b.parts + [Part(name, INIT, [])], topics := b.topics[name := |b.parts|])
    case Lookup(name) =>
      if b.closed || name !in b.topics then b else b.(handles := b.handles + {b.topics[name]})
    case Within(i, a) => b.(parts := b.parts[i := Advance(c.midBatch, b.parts[i], a)])
    case CloseStart =>
      if b.closed then b
      else b.(closed := true, closer := Running(set n | n in b.topics :: b.topics[n], None))
    case ClosePart(i) =>
      if b.parts[i].k.closed then b.(closer := Running(b.closer.todo - {i}, None))
      else b.(parts := b.parts[i := Advance(c.midBatch, b.parts[i], CloseBegin)], closer := Running(b.closer.todo, Some(i)))
    case ClosePartEnd =>
      var i := b.closer.current.value;
      b.(parts := b.parts[i := Advance(c.midBatch, b.parts[i], CloseEnd)], closer := Running(b.closer.todo - {i}, None))
    case CloseReturn => b.(topics := map[], closer := Returned)
  }

  function Runs(c: Config, steps: seq<Step>): Option<Broker> {
    if steps == [] then Some(NEW)
    else
      match Runs(c, steps[..|steps| - 1])
      case None => None
      case Some(b) =>
        var step := steps[|steps| - 1];
        if Can(c, b, step) then Some(Do(c, b, step)) else None
  }

  // ---- the invariant ----

  ghost predicate PartOk(c: Config, p: Part) {
    Run(c.midBatch, p.trace) == Some(p.k)
  }

  /** Until Close has returned, the map names every partition ever created, each once. */
  ghost predicate NamesOk(b: Broker) {
    (forall i :: 0 <= i < |b.parts| ==> b.closer != Returned ==> b.parts[i].name in b.topics && b.topics[b.parts[i].name] == i)
    && (forall n :: n in b.topics ==> b.topics[n] < |b.parts| && b.parts[b.topics[n]].name == n)
  }

  /** How far closing has come, partition by partition. */
  ghost predicate PartClosing(b: Broker, i: nat)
    requires i < |b.parts|
  {
    var k := b.parts[i].k;
    match b.closer
    case NotStarted => !k.closed
    case Running(todo, current) =>
      if current == Some(i) then i in todo && k.closed && k.lock.Closing?
      else if i in todo then !k.closed
      else k.closed && !k.lock.Closing?
    case Returned => k.closed && !k.lock.Closing?
  }

  ghost predicate ClosingOk(b: Broker) {
    (b.closed <==> b.closer != NotStarted) && (forall i :: 0 <= i < |b.parts| ==> PartClosing(b, i))
    && (b.closer == Returned ==> b.topics == map[])
  }

  ghost predicate Ok(c: Config, b: Broker) {
    NamesOk(b) && ClosingOk(b) && forall i :: 0 <= i < |b.parts| ==> PartOk(c, b.parts[i])
  }

  lemma OkParts(c: Config, b: Broker, step: Step)
    requires Ok(c, b) && Can(c, b, step)
    ensures forall i :: 0 <= i < |Do(c, b, step).parts| ==> PartOk(c, Do(c, b, step).parts[i])
  {
    hide NamesOk, ClosingOk, Run, Apply;
    Broadcast.RunNothing(c.midBatch);
    var b' := Do(c, b, step);
    forall i | 0 <= i < |b'.parts| ensures PartOk(c, b'.parts[i]) {
      if i < |b.parts| && |b'.parts[i].trace| > |b.parts[i].trace| {
        assert PartOk(c, b.parts[i]);
        Broadcast.RunSnoc(c.midBatch, b.parts[i].trace, b'.parts[i].trace[|b.parts[i].trace|]);
      } else if i < |b.parts| {
        assert PartOk(c, b.parts[i]);
      }
    }
  }

  /** A kernel step that is not a close leaves a partition as closed as it was. */
  lemma ClosingKept(m: Policy, p: Part, a: Action)
    requires Run(m, p.trace) == Some(p.k) && Enabled(m, p.k, a) && !a.CloseBegin? && !a.CloseEnd?
    ensures var k := Advance(m, p, a).k;
            k.closed == p.k.closed && (p.k.closed ==> (k.lock.Closing? <==> p.k.lock.Closing?))
  {
    hide Run;
    RunInv(m, p.trace);
  }

  lemma OkClosing(c: Config, b: Broker, step: Step)
    requires Ok(c, b) && Can(c, b, step)
    ensures ClosingOk(Do(c, b, step))
  {
    hide Run;
    var b' := Do(c, b, step);
    forall i | 0 <= i < |b'.parts| ensures PartClosing(b', i) {
      if i < |b.parts| {
        assert PartClosing(b, i) && PartOk(c, b.parts[i]);
        if step.Within? && step.i == i {
          ClosingKept(c.midBatch, b.parts[i], step.a);
        }
        if step.CloseStart? && !b.closed {
          assert b.parts[i].name in b.topics && b.topics[b.parts[i].name] == i;
        }
      }
    }
  }

  lemma NamesCreate(c: Config, b: Broker, name: Bytes)
    requires NamesOk(b) && ClosingOk(b) && Can(c, b, Create(name))
    ensures NamesOk(Do(c, b, Create(name)))
  {
    hide Run, Apply, PartClosing, ValidName;
  }

  lemma NamesRest(c: Config, b: Broker, step: Step)
    requires NamesOk(b) && ClosingOk(b) && Can(c, b, step) && !step.Create?
    ensures NamesOk(Do(c, b, step))
  {
    hide Run, Apply, Advance, PartClosing;
    var b' := Do(c, b, step);
    assert |b'.parts| == |b.parts| && forall i :: 0 <= i < |b.parts| ==> b'.parts[i].name == b.parts[i].name;
  }

  lemma OkNames(c: Config, b: Broker, step: Step)
    requires Ok(c, b) && Can(c, b, step)
    ensures NamesOk(Do(c, b, step))
  {
    hide Run, Do, NamesOk, ClosingOk, PartOk;
    if step.Create? {
      NamesCreate(c, b, step.name);
    } else {
      NamesRest(c, b, step);
    }
  }

  lemma {:induction false} RunsOk(c: Config, steps: seq<Step>)
    ensures Runs(c, steps).Some? ==> Ok(c, Runs(c, steps).value)
  {
    if steps != [] && Runs(c, steps).Some? {
      var init := steps[..|steps| - 1];
      RunsOk(c, init);
      OkParts(c, Runs(c, init).value, steps[|steps| - 1]);
      OkClosing(c, Runs(c, init).value, steps[|steps| - 1]);
      OkNames(c, Runs(c, init).value, steps[|steps| - 1]);
    }
  }

  // ---- what the broker promises ----

  lemma RunsSnoc(c: Config, steps: seq<Step>, step: Step)
    ensures Runs(c, steps + [step]) ==
            match Runs(c, steps)
            case None => None
            case Some(b) => if Can(c, b, step) then Some(Do(c, b, step)) else None
  {
    assert (steps + [step])[..|steps|] == steps;
  }

  lemma TakeStep(c: Config, steps: seq<Step>, b: Broker, step: Step) returns (steps': seq<Step>, b': Broker)
    requires Runs(c, steps) == Some(b) && Can(c, b, step)
    ensures Runs(c, steps') == Some(b') && b' == Do(c, b, step) && steps' == steps + [step]
  {
    RunsSnoc(c, steps, step);
    steps', b' := steps + [step], Do(c, b, step);
  }

  /**
   Whatever has happened to it, an open broker with room can be used: the topic that a
   Create adds is looked up and published to in five more steps, at offset 0.
   */
  lemma Usable(c: Config, steps: seq<Step>, name: Bytes, payload: Bytes) returns (steps': seq<Step>)
    requires Runs(c, steps).Some? && !Runs(c, steps).value.closed && ValidName(name)
    requires name !in Runs(c, steps).value.topics && (c.maxTopics > 0 ==> |Runs(c, steps).value.topics| < c.maxTopics)
    ensures steps <= steps' && |steps'| == |steps| + 5 && Runs(c, steps').Some?
    ensures var (b, b') := (Runs(c, steps).value, Runs(c, steps').value);
            b'.topics == b.topics[name := |b.parts|] && |b'.parts| == |b.parts| + 1 && b'.parts[..|b.parts|] == b.parts
            && b'.parts[|b.parts|].k.log == [Msg(0, payload)]
            && b'.parts[|b.parts|].k.calls == [Call([payload], Published(0))]
  {
    hide Runs, Run;
    RunsOk(c, steps);
    var b, i := Runs(c, steps).value, |Runs(c, steps).value.parts|;
    var b1;
    steps', b1 := TakeStep(c, steps, b, Create(name));
    steps', b1 := TakeStep(c, steps', b1, Lookup(name));
    steps', b1 := TakeStep(c, steps', b1, Within(i, Begin([payload])));
    steps', b1 := TakeStep(c, steps', b1, Within(i, AppendOk));
    steps', b1 := TakeStep(c, steps', b1, Within(i, EndPublish));
  }

  /** In every run every topic has a valid name, and a positive limit bounds their number. */
  lemma {:induction false} TopicsWithin(c: Config, steps: seq<Step>)
    requires Runs(c, steps).Some?
    ensures var b := Runs(c, steps).value;
            (forall n :: n in b.topics ==> ValidName(n)) && (c.maxTopics > 0 ==> |b.topics| <= c.maxTopics)
  {
    hide ValidName, Apply;
    if steps != [] {
      TopicsWithin(c, steps[..|steps| - 1]);
    }
  }

  /** Two topics never share a partition. */
  lemma TopicsSeparate(c: Config, steps: seq<Step>, n: Bytes, o: Bytes)
    requires Runs(c, steps).Some?
    requires n in Runs(c, steps).value.topics && o in Runs(c, steps).value.topics && n != o
    ensures Runs(c, steps).value.topics[n] != Runs(c, steps).value.topics[o]
  {
    RunsOk(c, steps);
  }

  /** Every partition of a broker is in a state of some kernel run, so all that holds of those holds of it. */
  lemma PartitionsAreKernels(c: Config, steps: seq<Step>, i: nat)
    requires Runs(c, steps).Some? && i < |Runs(c, steps).value.parts|
    ensures var p := Runs(c, steps).value.parts[i];
            Run(c.midBatch, p.trace) == Some(p.k)
            && (!c.midBatch ==> Broadcast.NoLostWakeup(p.k))
            && !p.k.panicked
  {
    RunsOk(c, steps);
    var p := Runs(c, steps).value.parts[i];
    assert PartOk(c, p);
    RunInv(c.midBatch, p.trace);
    if !c.midBatch {
      Broadcast.WakeupsKept(p.trace);
    }
  }

  /** One broker step later: the same partitions, each with its run continued, and possibly a new one. */
  ghost predicate Continues(b: Broker, b': Broker) {
    |b.parts| <= |b'.parts| && (forall i :: 0 <= i < |b.parts| ==> b.parts[i].trace <= b'.parts[i].trace)
    && (b.closer == Returned ==> b'.closer == Returned && |b'.parts| == |b.parts|)
  }

  lemma StepContinues(c: Config, b: Broker, step: Step)
    requires Ok(c, b) && Can(c, b, step)
    ensures Continues(b, Do(c, b, step))
  {
    hide Run, Apply;
  }

  lemma {:induction false} PartsContinue(c: Config, steps: seq<Step>, more: seq<Step>)
    requires Runs(c, steps + more).Some?
    ensures Runs(c, steps).Some? && Continues(Runs(c, steps).value, Runs(c, steps + more).value)
  {
    hide Run, Apply;
    if more == [] {
      assert steps + more == steps;
    } else {
      var init := more[..|more| - 1];
      assert steps + more == (steps + init) + [more[|more| - 1]];
      RunsSnoc(c, steps + init, more[|more| - 1]);
      PartsContinue(c, steps, init);
      RunsOk(c, steps + init);
      StepContinues(c, Runs(c, steps + init).value, more[|more| - 1]);
    }
  }

  /**
   Once Close has returned, every partition ever created is closed, has no subscriber,
   and no later step of anyone (an old handle included) adds a message or a partition.
   */
  lemma ClosedForGood(c: Config, steps: seq<Step>, more: seq<Step>, i: nat)
    requires Runs(c, steps + more).Some? && Runs(c, steps).Some? && Runs(c, steps).value.closer == Returned
    requires i < |Runs(c, steps + more).value.parts|
    ensures i < |Runs(c, steps).value.parts|
    ensures var k, k' := Runs(c, steps).value.parts[i].k, Runs(c, steps + more).value.parts[i].k;
            k.closed && k.live == {} && k'.log == k.log
            && forall j :: |k.calls| <= j < |k'.calls| ==> k'.calls[j].outcome == Rejected
  {
    PartsContinue(c, steps, more);
    RunsOk(c, steps);
    RunsOk(c, steps + more);
    var p, p' := Runs(c, steps).value.parts[i], Runs(c, steps + more).value.parts[i];
    assert PartOk(c, p) && PartOk(c, p') && PartClosing(Runs(c, steps).value, i);
    RunInv(c.midBatch, p.trace);
    var rest := p'.trace[|p.trace|..];
    assert p'.trace == p.trace + rest;
    Broadcast.RunExtends(c.midBatch, p.trace, rest);
    forall j | |p.k.calls| <= j < |p'.k.calls| ensures p'.k.calls[j].outcome == Rejected {
      Broadcast.RejectedOnceClosed(c.midBatch, p.trace, rest, j);
    }
  }
}
