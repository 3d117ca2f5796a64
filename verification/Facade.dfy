/** The Broker object of broker/broker.go over the partition objects. */
module Facade {
  import opened Words
  import opened Store
  import opened Kernel
  import opened Partitions
  import opened Names

  /** Everything a partition consists of. */
  ghost function Foot(p: Partition): set<object>
    reads p
  {
    {p, p.store} + p.everyone
  }

  /** A subscription of `p` that has read nothing yet and is not being read from. */
  ghost predicate AtStart(s: Subscription, p: Partition)
    reads s, p, p.store, p.everyone
  {
    Whole(p) && s.partition == p && s in p.everyone && s.offset == 0
    && p.Pc(s.id) == Some(Idle) && p.k.subs[s.id].batches == []
  }

  /** No two partitions share an object, and none contains the broker. */
  ghost predicate Apart(b: object, ps: set<Partition>)
    reads ps
  {
    (forall p :: p in ps ==> b !in Foot(p))
    && (forall p, q :: p in ps && q in ps && p != q ==> Foot(p) !! Foot(q))
  }

  ghost predicate Held(b: object, ps: set<Partition>)
    reads ps, set p, o | p in ps && o in Foot(p) :: o
  {
    Apart(b, ps) && forall p :: p in ps ==> Whole(p)
  }

  ghost predicate OneToOne(topics: map<Bytes, Partition>) {
    forall n, o :: n in topics && o in topics && n != o ==> topics[n] != topics[o]
  }

  lemma AddOne(topics: map<Bytes, Partition>, name: Bytes, p: Partition)
    requires OneToOne(topics) && name !in topics && p !in topics.Values
    ensures OneToOne(topics[name := p]) && topics[name := p].Values == topics.Values + {p}
  {
    var m := topics[name := p];
    assert name in m && m[name] == p;
    forall q | q in topics.Values ensures q in m.Values {
      var n :| n in topics && topics[n] == q;
      assert n in m && m[n] == q;
    }
  }

  /** A log that has grown by these payloads has grown by these messages. */
  lemma GrownBy(log: seq<Msg>, log': seq<Msg>, payloads: seq<Bytes>)
    requires IsLog(log') && log <= log' && Payloads(log') == Payloads(log) + payloads
    ensures |log| + |payloads| <= MAX_INT64 && log' == Appended(log, payloads)
  {
    assert |Payloads(log')| == |log'|;
    forall i | 0 <= i < |payloads| ensures log'[|log| + i] == Msg((|log| + i) as int64, payloads[i]) {
      assert Payloads(log')[|log| + i] == payloads[i];
    }
  }

  class Broker {
    var closed: bool
    var topics: map<Bytes, Partition>
    const maxTopics: int
    ghost var created: set<Partition>

    /** The partitions are separate; the map holds each of them once until Close, and Close leaves none open. */
    ghost predicate Valid()
      reads this, created, set p, o | p in created && o in Foot(p) :: o
    {
      Held(this, created) && OneToOne(topics)
      && (if closed then topics == map[] && (forall p :: p in created ==> p.closed)
          else topics.Values == created && forall p :: p in created ==> !p.closed)
    }

    /** The log of every topic. */
    ghost function Logs(): (logs: map<Bytes, seq<Msg>>)
      reads this, topics.Values, set p | p in topics.Values :: p.store
      ensures logs.Keys == topics.Keys && |logs| == |topics|
      ensures forall n :: n in topics ==> logs[n] == topics[n].store.msgs
    {
      var logs := map n | n in topics :: topics[n].store.msgs;
      assert logs.Keys == topics.Keys && |logs| == |logs.Keys|;
      logs
    }

    constructor (limit: int)
      ensures Valid() && !closed && topics == map[] && maxTopics == limit && created == {}
    {
      closed, topics, maxTopics, created := false, map[], limit, {};
    }

    method CreateTopic(name: Bytes) returns (r: Result<()>)
      requires Valid()
      modifies this
      ensures Valid() && closed == old(closed)
      ensures r.Err? ==> topics == old(topics) && created == old(created)
      ensures r == if closed then Err(Closed) else if !ValidName(name) then Err(NameError(name).value)
                   else if name in old(topics) then Err(TopicExists)
                   else if maxTopics > 0 && |old(topics)| >= maxTopics then Err(TooManyTopics) else Ok(())
      ensures r.Ok? ==> name in topics && fresh(topics[name]) && topics == old(topics)[name := topics[name]]
                        && topics[name].store.msgs == [] && created == old(created) + {topics[name]}
      ensures Logs() == if r.Ok? then old(Logs())[name := []] else old(Logs())
    {
      hide Whole, Held, OneToOne, NameError, ValidName;
      if closed {
        return Err(Closed);
      }
      var wrong := CheckName(name);
      if wrong.Some? {
        return Err(wrong.value);
      }
      if name in topics {
        return Err(TopicExists);
      }
      if maxTopics > 0 && |topics| >= maxTopics {
        return Err(TooManyTopics);
      }
      Grow(name);
      r := Ok(());
    }

    method CheckName(name: Bytes) returns (wrong: Option<Error>)
      requires Valid()
      ensures Valid() && Logs() == old(Logs()) && wrong == NameError(name) && (wrong == None <==> ValidName(name))
    {
      hide Whole, OneToOne;
      wrong := ValidateTopicName(name);
      assert forall p :: p in created ==> Foot(p) == old(Foot(p));
    }

    /** A new partition for a new topic. */
    method Grow(name: Bytes)
      requires Valid() && !closed && name !in topics
      modifies this`topics, this`created
      ensures Valid() && name in topics && fresh(topics[name]) && topics == old(topics)[name := topics[name]]
      ensures topics[name].store.msgs == [] && created == old(created) + {topics[name]}
      ensures Logs() == old(Logs())[name := []]
    {
      hide Whole, OneToOne;
      var p := NewPartition();
      assert Logs() == old(Logs());
      Insert(name, p);
    }

    method Insert(name: Bytes, p: Partition)
      requires Valid() && !closed && name !in topics && p !in created
      requires Whole(p) && !p.closed && this !in Foot(p) && forall q :: q in created ==> Foot(q) !! Foot(p)
      modifies this`topics, this`created
      ensures Valid() && topics == old(topics)[name := p] && created == old(created) + {p}
      ensures Logs() == old(Logs())[name := p.store.msgs]
    {
      hide Whole, Held, OneToOne, Foot;
      ghost var logs := Logs()[name := p.store.msgs];
      Put(name, p);
      LogsAre(logs);
    }

    lemma LogsAre(logs: map<Bytes, seq<Msg>>)
      requires topics.Keys == logs.Keys && forall n :: n in topics ==> topics[n].store.msgs == logs[n]
      ensures Logs() == logs
    {
    }

    method Put(name: Bytes, p: Partition)
      requires Valid() && !closed && name !in topics && p !in created
      requires Whole(p) && !p.closed && this !in Foot(p) && forall q :: q in created ==> Foot(q) !! Foot(p)
      modifies this`topics, this`created
      ensures Valid() && topics == old(topics)[name := p] && created == old(created) + {p}
    {
      hide Whole;
      AddOne(topics, name, p);
      topics := topics[name := p];
      created := created + {p};
      assert forall q :: q in created ==> Whole(q);
    }

    /** newPartition(newMemoryLog()) */
    static method NewPartition() returns (p: Partition)
      ensures fresh(Foot(p)) && Whole(p) && !p.closed && p.store.msgs == []
    {
      var store := new MemoryLog();
      p := new Partition(store);
    }

    /** The lookup every operation starts with: what it finds is open, and no other name leads to it. */
    method Topic(name: Bytes) returns (r: Result<Partition>)
      requires Valid()
      ensures Valid() && Logs() == old(Logs())
      ensures r.Ok? ==> r.value in created && Whole(r.value) && !r.value.closed
                        && forall n :: n in topics && topics[n] == r.value ==> n == name
      ensures r == if closed then Err(Closed) else if name in topics then Ok(topics[name]) else Err(TopicNotFound)
    {
      if closed {
        return Err(Closed);
      }
      if name !in topics {
        return Err(TopicNotFound);
      }
      r := Ok(topics[name]);
    }

    method Publish(topic: Bytes, payload: Bytes) returns (r: Result<int64>)
      requires Valid() && (topic in topics ==> |Logs()[topic]| < MAX_INT64)
      modifies if topic in topics then Foot(topics[topic]) else {}
      ensures Valid() && topics == old(topics) && created == old(created) && closed == old(closed)
      ensures closed ==> r == Err(Closed)
      ensures !closed && topic !in topics ==> r == Err(TopicNotFound)
      ensures !closed && topic in topics ==> r.Ok? && r.value as int == |old(Logs())[topic]|
      ensures Logs() == if r.Ok? then old(Logs())[topic := Appended(old(Logs())[topic], [payload])] else old(Logs())
    {
      hide Whole, Held, OneToOne;
      var t := Topic(topic);
      if t.Err? {
        return Err(t.error);
      }
      ghost var before := Logs();
      r := PublishTo(topic, t.value, payload);
      assert forall n :: n in topics ==> Logs()[n] == before[topic := Appended(before[topic], [payload])][n];
    }

    method PublishTo(topic: Bytes, p: Partition, payload: Bytes) returns (r: Result<int64>)
      requires Valid() && !closed && topic in topics && topics[topic] == p && |p.store.msgs| < MAX_INT64
      modifies Foot(p)
      ensures Valid() && topics == old(topics) && created == old(created) && closed == old(closed)
      ensures r.Ok? && r.value as int == |old(p.store.msgs)| && p.store.msgs == Appended(old(p.store.msgs), [payload])
      ensures forall n :: n in topics && n != topic ==> topics[n].store.msgs == old(topics[n].store.msgs)
    {
      hide Whole, Run;
      WholeIsValid(p);
      r := p.Publish(payload);
      WholeIsValid(p);
      assert forall q :: q in created && q != p ==> Foot(q) !! Foot(p) && q.store in Foot(q);
    }

    method PublishBatch(topic: Bytes, payloads: seq<Bytes>) returns (r: Result<int64>)
      requires Valid() && (topic in topics ==> |Logs()[topic]| + |payloads| <= MAX_INT64)
      modifies if topic in topics then Foot(topics[topic]) else {}
      ensures Valid() && topics == old(topics) && created == old(created) && closed == old(closed)
      ensures closed ==> r == Err(Closed)
      ensures !closed && topic !in topics ==> r == Err(TopicNotFound)
      ensures !closed && topic in topics ==> r.Ok? && r.value as int == if payloads == [] then 0 else |old(Logs())[topic]|
      ensures Logs() == if r.Ok? then old(Logs())[topic := Appended(old(Logs())[topic], payloads)] else old(Logs())
    {
      hide Whole, Held, OneToOne;
      var t := Topic(topic);
      if t.Err? {
        return Err(t.error);
      }
      ghost var before := Logs();
      r := PublishBatchTo(topic, t.value, payloads);
      assert forall n :: n in topics ==> Logs()[n] == before[topic := Appended(before[topic], payloads)][n];
    }

    method PublishBatchTo(topic: Bytes, p: Partition, payloads: seq<Bytes>) returns (r: Result<int64>)
      requires Valid() && !closed && topic in topics && topics[topic] == p && |p.store.msgs| + |payloads| <= MAX_INT64
      modifies Foot(p)
      ensures Valid() && topics == old(topics) && created == old(created) && closed == old(closed)
      ensures r.Ok? && r.value as int == if payloads == [] then 0 else |old(p.store.msgs)|
      ensures p.store.msgs == Appended(old(p.store.msgs), payloads)
      ensures forall n :: n in topics && n != topic ==> topics[n].store.msgs == old(topics[n].store.msgs)
    {
      hide Whole, Run;
      WholeIsValid(p);
      r := p.PublishBatch(payloads);
      GrownBy(old(p.store.msgs), p.store.msgs, payloads);
      WholeIsValid(p);
      assert forall q :: q in created && q != p ==> Foot(q) !! Foot(p) && q.store in Foot(q);
    }

    method Subscribe(topic: Bytes) returns (r: Result<Subscription>)
      requires Valid()
      modifies if topic in topics then {topics[topic]} else {}
      ensures Valid() && topics == old(topics) && created == old(created) && closed == old(closed)
      ensures closed ==> r == Err(Closed)
      ensures !closed && topic !in topics ==> r == Err(TopicNotFound)
      ensures !closed && topic in topics ==>
                r.Ok? && fresh(r.value) && r.value in topics[topic].subs && AtStart(r.value, topics[topic])
      ensures Logs() == old(Logs())
    {
      hide Whole, Held, OneToOne;
      var t := Topic(topic);
      if t.Err? {
        return Err(t.error);
      }
      ghost var before := Logs();
      var s := SubscribeTo(t.value);
      assert forall n :: n in topics ==> Logs()[n] == before[n];
      r := Ok(s);
    }

    method SubscribeTo(p: Partition) returns (s: Subscription)
      requires Valid() && !closed && p in created
      modifies p
      ensures Valid() && topics == old(topics) && created == old(created) && closed == old(closed)
      ensures fresh(s) && s in p.subs && AtStart(s, p)
      ensures forall q :: q in created ==> q.store.msgs == old(q.store.msgs)
    {
      hide Whole, Run;
      WholeIsValid(p);
      var r := p.Subscribe();
      WholeIsValid(p);
      s := r.value;
    }

    /** Close: idempotent; afterwards every partition ever created is closed, whatever the order. */
    method Close()
      requires Valid()
      modifies this, set p, o | p in created && o in Foot(p) :: o
      ensures Valid() && closed && topics == map[] && created == old(created)
      ensures forall p :: p in created ==> p.closed && p.store.msgs == old(p.store.msgs)
      ensures !old(closed) ==> forall p :: p in created ==> p.subs == {}
    {
      hide Whole;
      if closed {
        return;
      }
      closed := true;
      assert forall p :: p in created ==> Whole(p);
      CloseAll();
      Forget();
    }

    /** The loop of Close. */
    method CloseAll()
      requires Held(this, created) && OneToOne(topics) && topics.Values == created
      modifies set p, o | p in created && o in Foot(p) :: o
      ensures Held(this, created) && created == old(created) && closed == old(closed)
      ensures forall p :: p in created ==> p.closed && p.subs == {} && p.store.msgs == old(p.store.msgs)
    {
      hide Held, Run;
      var todo := topics;
      while todo != map[]
        invariant topics == old(topics) && created == old(created) && closed == old(closed) && Held(this, created)
        invariant todo.Values <= created && OneToOne(todo)
        invariant forall p :: p in created ==> Foot(p) == old(Foot(p)) && p.store.msgs == old(p.store.msgs)
        invariant forall p :: p in created && p !in todo.Values ==> p.closed && p.subs == {}
        decreases |todo|
      {
        var n :| n in todo;
        ClosePartition(todo[n]);
        DropOne(todo, n);
        todo := todo - {n};
      }
    }

    method Forget()
      requires Held(this, created) && closed && forall p :: p in created ==> p.closed
      modifies this`topics
      ensures Valid() && topics == map[]
    {
      hide Whole;
      topics := map[];
      assert forall p :: p in created ==> Whole(p);
    }

    /** One `partition.close()`: the others are left as they are. */
    method ClosePartition(p: Partition)
      requires Held(this, created) && p in created
      modifies Foot(p)
      ensures Held(this, created) && created == old(created) && topics == old(topics) && closed == old(closed)
      ensures p.closed && p.subs == {}
      ensures forall q :: q in created ==> Foot(q) == old(Foot(q)) && q.store.msgs == old(q.store.msgs)
      ensures forall q :: q in created && q != p ==> q.closed == old(q.closed) && q.subs == old(q.subs)
    {
      hide Run, Whole;
      WholeIsValid(p);
      p.Close();
      WholeIsValid(p);
      assert forall q :: q in created && q != p ==> Foot(q) !! Foot(p);
    }
  }

  lemma DropOne(topics: map<Bytes, Partition>, name: Bytes)
    requires OneToOne(topics) && name in topics
    ensures OneToOne(topics - {name}) && (topics - {name}).Values == topics.Values - {topics[name]}
  {
    var m := topics - {name};
    forall q | q in topics.Values - {topics[name]} ensures q in m.Values {
      var n :| n in topics && topics[n] == q;
      assert n in m && m[n] == q;
    }
  }
}
