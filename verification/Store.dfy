/** The log backend of broker/store.go: an append-only list whose offsets are its indices. */
module Store {
  import opened Words

  datatype Msg = Msg(offset: int64, payload: Bytes)

  /** Offset and index agree, and the length is an `int`. */
  ghost predicate IsLog(log: seq<Msg>) {
    |log| <= MAX_INT64 && forall i :: 0 <= i < |log| ==> log[i].offset as int == i
  }

  /** The payloads of a row of messages. */
  function Payloads(log: seq<Msg>): seq<Bytes> {
    seq(|log|, i requires 0 <= i < |log| => log[i].payload)
  }

  /** What a read means, over unbounded integers: `log[from..min(from+max, n)]`, empty out of range. */
  function Window(log: seq<Msg>, from: int, max: int): (w: seq<Msg>) {
    if from < 0 || from >= |log| || max <= 0 then []
    else log[from..if from + max < |log| then from + max else |log|]
  }

  /**
   A read from a cursor inside the log continues the log where the cursor stands: as many
   messages as asked for, or all there are up to its end.
   */
  lemma WindowContinues(log: seq<Msg>, from: nat, max: int)
    requires from <= |log| && max > 0
    ensures var w := Window(log, from, max);
            (w == [] <==> from == |log|) && |w| == (if max < |log| - from then max else |log| - from)
            && log[..from] + w == log[..from + |w|]
    ensures IsLog(log) && from < |log| ==>
              var w := Window(log, from, max); w[|w| - 1].offset as int + 1 == from + |w|
  {
  }

  /** The messages `payloads` become at the end of `log`. */
  function Appended(log: seq<Msg>, payloads: seq<Bytes>): (r: seq<Msg>)
    requires |log| + |payloads| <= MAX_INT64
    ensures |r| == |log| + |payloads| && log <= r
    ensures forall i :: 0 <= i < |payloads| ==> r[|log| + i] == Msg((|log| + i) as int64, payloads[i])
  {
    log + seq(|payloads|, i requires 0 <= i < |payloads| => Msg((|log| + i) as int64, payloads[i]))
  }

  function Min(a: int64, b: int64): int64 {
    if a < b then a else b
  }

  class MemoryLog {
    var msgs: seq<Msg>

    ghost predicate Valid()
      reads this
    {
      IsLog(msgs)
    }

    constructor ()
      ensures Valid() && msgs == []
    {
      msgs := [];
    }

    /** A slice of the largest length cannot grow (the runtime would panic), hence the precondition. */
    method Append(payload: Bytes) returns (offset: int64)
      requires Valid() && |msgs| < MAX_INT64
      modifies this
      ensures Valid() && offset as int == |old(msgs)| && msgs == old(msgs) + [Msg(offset, payload)]
    {
      offset := |msgs| as int64;
      msgs := msgs + [Msg(offset, payload)];
    }

    /**
     nil out of range or when nothing is asked for, otherwise a newly allocated copy of `max`
     messages, or of all the rest when there are fewer; no intermediate overflows for any arguments.
     */
    method Read(from: int64, max: int64) returns (result: array?<Msg>)
      requires Valid()
      ensures result == null <==> from < 0 || from as int >= |msgs| || max <= 0
      ensures result != null ==> fresh(result)
      ensures result != null ==>
                result.Length == (if |msgs| - from as int < max as int then |msgs| - from as int else max as int)
      ensures result != null ==> forall i :: 0 <= i < result.Length ==> result[i] == msgs[from as int + i]
      ensures (if result == null then [] else result[..]) == Window(msgs, from as int, max as int)
    {
      var n := |msgs| as int64;
      if from < 0 || from >= n || max <= 0 {
        return null;
      }
      var end := Min(n, from + Min(max, n - from));
      var size := (end - from) as int;
      var window := msgs[from..end];
      result := new Msg[size](i requires 0 <= i < size => window[i]);
      assert result[..] == window;
      assert forall i :: 0 <= i < size ==> window[i] == msgs[from as int + i];
    }

    /** The offset the next message will get, and the first one from which there is nothing to read. */
    method Len() returns (n: int64)
      requires Valid()
      ensures n as int == |msgs|
      ensures forall from: int, max: int :: 0 <= from && 0 < max ==> (Window(msgs, from, max) == [] <==> n as int <= from)
    {
      n := |msgs| as int64;
    }
  }
}
