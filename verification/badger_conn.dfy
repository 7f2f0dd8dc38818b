/**
 * A connection of the `badger` package (conn.go): a property store, a closed
 * flag, and a bounded output queue drained by a write loop. A nil buffer in
 * the queue is the sentinel that `Close` enqueues to stop the write loop.
 *
 * Each method is one atomic step; the read loop, the goroutines, the
 * read/write mutex and the wait group are not modelled. The transport is an
 * opaque handle whose `Close` calls are counted.
 */
module BadgerConn {
  import opened Common

  /** Capacity of the output channel made by `NewConnection`. */
  const OutputCapacity: nat := 128

  /**
   * A property value (Go `interface{}`). What matters to the connection is
   * whether its dynamic type is `int64`; any other value is kept as its Go
   * type name and a rendering of it (a nil value is `OtherValue("nil", "")`).
   */
  datatype Value = Int64Value(n: int64) | OtherValue(goType: string, text: string)

  datatype PropertyError = NoPropertyDataFound

  /** `Write(nil)` panics. */
  datatype WriteFault = NilBufferPanic

  /** Why the write loop stopped. `Waiting` means it waits for the next buffer. */
  datatype DrainExit = Waiting | QueueDrained | Sentinel | WriteFailed

  /** The buffers written, how many queue entries were received, and the exit. */
  datatype DrainResult = DrainResult(written: seq<Bytes>, consumed: nat, exit: DrainExit)

  /** Entries received whose write did not happen: the sentinel or the failed buffer. */
  function Unwritten(exit: DrainExit): nat
  {
    if exit == Sentinel || exit == WriteFailed then 1 else 0
  }

  /**
   * `writeLoop` run on queue `q` (`None` is the nil sentinel); `closed` says
   * whether the queue has been closed by `release`; the transport accepts
   * `accepted` writes and then fails. The buffers written are the queue's
   * head in order; nothing behind a sentinel is written; the loop stops on
   * the first sentinel, on a failed write, or when a closed queue runs dry.
   */
  function Drain(q: seq<Option<Bytes>>, closed: bool, accepted: nat): (r: DrainResult)
    decreases |q|
    ensures r.consumed <= |q|
    ensures r.exit == Waiting ==> !closed && r.consumed == |q|
    ensures r.exit == QueueDrained ==> closed && r.consumed == |q|
    ensures r.exit == WriteFailed ==> r.consumed == accepted + 1
  {
    if q == [] then
      DrainResult([], 0, if closed then QueueDrained else Waiting)
    else if q[0].None? then
      DrainResult([], 1, Sentinel)
    else if accepted == 0 then
      DrainResult([], 1, WriteFailed)
    else
      var r := Drain(q[1..], closed, accepted - 1);
      assert q[0] == Some(q[0].value);
      DrainResult([q[0].value] + r.written, r.consumed + 1, r.exit)
  }

  /**
   * What `Drain` writes is the queue's head, unchanged and in order; it
   * stops on a sentinel or a failed write exactly where one sits; a queue
   * without sentinels that the transport fully accepts is drained.
   */
  lemma {:induction false} DrainWritesHead(q: seq<Option<Bytes>>, closed: bool, accepted: nat)
    ensures var r := Drain(q, closed, accepted);
      && |r.written| + Unwritten(r.exit) == r.consumed && |r.written| <= accepted
      && (forall j :: 0 <= j < |r.written| ==> q[j] == Some(r.written[j]))
      && (r.exit == Sentinel ==> q[r.consumed - 1] == None)
      && (r.exit == WriteFailed ==> q[accepted].Some?)
      && (None !in q && accepted >= |q| ==> r.exit == (if closed then QueueDrained else Waiting))
    decreases |q|
  {
    if q != [] && q[0].Some? && accepted > 0 {
      DrainWritesHead(q[1..], closed, accepted - 1);
      var r := Drain(q, closed, accepted);
      var t := Drain(q[1..], closed, accepted - 1);
      assert r.written == [q[0].value] + t.written;
      forall j | 0 <= j < |r.written|
        ensures q[j] == Some(r.written[j])
      {
        if j > 0 {
          assert q[j] == q[1..][j - 1];
        }
      }
      if None !in q && accepted >= |q| {
        assert None !in q[1..];
      }
    }
  }

  /**
   * `Close` followed by the write loop: with the sentinel behind a queue of
   * buffers that the transport accepts, the loop writes every buffer ahead
   * of the sentinel, in order, receives the sentinel and stops there, so
   * nothing enqueued after it is written.
   */
  lemma {:induction false} SentinelStopsWriteLoop(q: seq<Option<Bytes>>, tail: seq<Option<Bytes>>, closed: bool, accepted: nat)
    requires None !in q && accepted >= |q|
    ensures var r := Drain(q + [None] + tail, closed, accepted);
      && r.exit == Sentinel && r.consumed == |q| + 1 && |r.written| == |q|
      && (forall j :: 0 <= j < |q| ==> q[j] == Some(r.written[j]))
    decreases |q|
  {
    var r := Drain(q + [None] + tail, closed, accepted);
    if q == [] {
      assert (q + [None] + tail)[0] == None;
    } else {
      assert (q + [None] + tail)[1..] == q[1..] + [None] + tail;
      assert q[0] in q;
      assert None !in q[1..] by {
        forall j | 0 <= j < |q[1..]| ensures q[1..][j] != None { assert q[1..][j] in q; }
      }
      SentinelStopsWriteLoop(q[1..], tail, closed, accepted - 1);
      var t := Drain(q[1..] + [None] + tail, closed, accepted - 1);
      assert r.written == [q[0].value] + t.written;
      forall j | 0 <= j < |q|
        ensures q[j] == Some(r.written[j])
      {
        if j > 0 {
          assert q[j] == q[1..][j - 1];
        }
      }
    }
  }

  /** `r` after `written` were written and `consumed` entries received. */
  function After(written: seq<Bytes>, consumed: nat, r: DrainResult): DrainResult
  {
    DrainResult(written + r.written, consumed + r.consumed, r.exit)
  }

  /** One successful write: the rest of the loop runs on the queue's tail. */
  lemma DrainDequeue(q: seq<Option<Bytes>>, closed: bool, accepted: nat)
    requires q != [] && q[0].Some? && accepted > 0
    ensures Drain(q, closed, accepted)
         == After([q[0].value], 1, Drain(q[1..], closed, accepted - 1))
  {
  }

  lemma AfterAfter(w1: seq<Bytes>, c1: nat, w2: seq<Bytes>, c2: nat, r: DrainResult)
    ensures After(w1, c1, After(w2, c2, r)) == After(w1 + w2, c1 + c2, r)
  {
    assert w1 + (w2 + r.written) == (w1 + w2) + r.written;
  }

  /** One buffer received and written: the rest of the loop runs on the queue's tail. */
  lemma ReceiveOne(spec: DrainResult, written: seq<Bytes>, consumed: nat, q: seq<Option<Bytes>>, closed: bool, budget: nat)
    requires q != [] && q[0].Some? && budget > 0
    requires spec == After(written, consumed, Drain(q, closed, budget))
    ensures spec == After(written + [q[0].value], consumed + 1, Drain(q[1..], closed, budget - 1))
  {
    DrainDequeue(q, closed, budget);
    AfterAfter(written, consumed, [q[0].value], 1, Drain(q[1..], closed, budget - 1));
  }

  /** The loop's last iteration: a drained queue, a sentinel, or a failed write. */
  lemma ReceiveLast(spec: DrainResult, written: seq<Bytes>, consumed: nat, q: seq<Option<Bytes>>, closed: bool, budget: nat)
    requires q == [] || q[0].None? || budget == 0
    requires spec == After(written, consumed, Drain(q, closed, budget))
    ensures q == [] ==> spec == DrainResult(written, consumed, if closed then QueueDrained else Waiting)
    ensures q != [] && q[0].None? ==> spec == DrainResult(written, consumed + 1, Sentinel)
    ensures q != [] && q[0].Some? ==> spec == DrainResult(written, consumed + 1, WriteFailed)
  {
    assert written + [] == written;
  }

  class Connection {
    const id: uint64
    var property: map<string, Value>
    /** The buffered `output` channel, head first; `None` is a nil buffer. */
    var output: seq<Option<Bytes>>
    /** Whether `close(output)` has run. */
    var outputClosed: bool
    var closed: bool
    /** How many times the transport's `Close` was called. */
    ghost var transportCloses: nat

    /** The queue is within its capacity and is closed exactly when the flag is set. */
    ghost predicate Valid()
      reads this
    {
      |output| <= OutputCapacity && outputClosed == closed
    }

    /** `NewConnection`: open, no properties, an empty queue of capacity `OutputCapacity`. */
    constructor (id: uint64)
      ensures Valid() && this.id == id
      ensures property == map[] && output == []
      ensures !closed && transportCloses == 0
    {
      this.id := id;
      property := map[];
      output := [];
      outputClosed := false;
      closed := false;
      transportCloses := 0;
    }

    /** `GetProperty`: the value stored under `key`, or an error when there is none. */
    function GetProperty(key: string): (r: Result<Value, PropertyError>)
      reads this
      ensures r.Ok? <==> key in property
      ensures r.Ok? ==> r.value == property[key]
      ensures r.Err? ==> r.error == NoPropertyDataFound
    {
      if key in property then Ok(property[key]) else Err(NoPropertyDataFound)
    }

    /**
     * `Int64`: the stored value when it is an `int64`; 0 when the key is
     * missing or holds a value of another type.
     */
    function Int64(key: string): (n: int64)
      reads this
      ensures GetProperty(key).Ok? && GetProperty(key).value.Int64Value? ==> n == GetProperty(key).value.n
      ensures n != 0 ==> GetProperty(key) == Ok(Int64Value(n))
    {
      if key in property then
        match property[key]
        case Int64Value(v) => v
        case OtherValue(_, _) => 0
      else 0
    }

    /** `SetProperty`: afterwards `key` reads back `value`; every other key reads as before. */
    method SetProperty(key: string, value: Value)
      modifies this`property
      ensures property == old(property)[key := value]
      ensures GetProperty(key) == Ok(value)
      ensures Int64(key) == (if value.Int64Value? then value.n else 0)
      ensures forall k :: k != key ==> GetProperty(k) == old(GetProperty(k))
    {
      property := property[key := value];
    }

    /** `RemoveProperty`: only `key` goes; removing a missing key changes nothing. */
    method RemoveProperty(key: string)
      modifies this`property
      ensures property == old(property) - {key}
      ensures key !in old(property) ==> property == old(property)
      ensures GetProperty(key) == Err(NoPropertyDataFound) && Int64(key) == 0
      ensures forall k :: k != key ==> GetProperty(k) == old(GetProperty(k))
    {
      property := property - {key};
    }

    /**
     * `Write`: a nil buffer panics; on a closed connection the call does
     * nothing; otherwise the buffer joins the tail of the queue. The send
     * blocks while the queue is full; the model takes "not full" as the
     * caller's obligation.
     */
    method Write(buffer: Option<Bytes>) returns (r: Outcome<WriteFault>)
      requires Valid()
      requires buffer.Some? && !closed ==> |output| < OutputCapacity
      modifies this`output
      ensures Valid()
      ensures r.Fail? <==> buffer.None?
      ensures r.Fail? ==> r.error == NilBufferPanic
      ensures buffer.None? || closed ==> output == old(output)
      ensures buffer.Some? && !closed ==> output == old(output) + [buffer]
    {
      if buffer.None? {
        return Fail(NilBufferPanic);
      }
      if closed {
        return Pass;
      }
      output := output + [buffer];
      r := Pass;
    }

    /**
     * `Close`: on an open connection it enqueues the nil sentinel, which
     * stops the write loop when it reaches it; on a closed one it does
     * nothing. It does not set the flag, so each call on an open connection
     * enqueues another sentinel. The send blocks while the queue is full.
     */
    method Close()
      requires Valid()
      requires !closed ==> |output| < OutputCapacity
      modifies this`output
      ensures Valid()
      ensures closed ==> output == old(output)
      ensures !closed ==> output == old(output) + [None]
    {
      if closed {
        return;
      }
      output := output + [None];
    }

    /** `release`: idempotent; only the first call closes the queue and sets the flag. */
    method Release()
      requires Valid()
      modifies this`closed, this`outputClosed
      ensures Valid() && closed && outputClosed
      ensures old(closed) ==> unchanged(this)
    {
      if !closed {
        outputClosed := true;
        closed := true;
      }
    }

    /**
     * `writeLoop` until it waits or returns: it writes what `Drain` says and
     * leaves the entries it did not receive in the queue. On return its
     * deferred code releases the connection and closes the transport.
     */
    method WriteLoop(accepted: nat) returns (written: seq<Bytes>, exit: DrainExit)
      requires Valid()
      modifies this
      ensures Valid() && property == old(property)
      ensures var r := Drain(old(output), old(closed), accepted);
        written == r.written && exit == r.exit && output == old(output)[r.consumed..]
      ensures exit == Waiting ==> !closed && transportCloses == old(transportCloses)
      ensures exit != Waiting ==> closed && transportCloses == old(transportCloses) + 1
    {
      written, exit := ReceiveAll(accepted);
      if exit != Waiting {
        Release();
        transportCloses := transportCloses + 1;
      }
    }

    /** The `range` loop of `writeLoop`. */
    method ReceiveAll(accepted: nat) returns (written: seq<Bytes>, exit: DrainExit)
      requires Valid()
      modifies this`output
      ensures Valid()
      ensures var r := Drain(old(output), closed, accepted);
        written == r.written && exit == r.exit && output == old(output)[r.consumed..]
    {
      ghost var spec := Drain(output, closed, accepted);
      written := [];
      var consumed := 0;
      var budget := accepted;
      assert [] + spec.written == spec.written;
      while output != []
        invariant Valid()
        invariant consumed <= |old(output)| && output == old(output)[consumed..]
        invariant spec == After(written, consumed, Drain(output, closed, budget))
        decreases |output|
      {
        var buffer := output[0];
        if buffer.None? || budget == 0 {
          ReceiveLast(spec, written, consumed, output, closed, budget);
          output := output[1..];
          return written, if buffer.None? then Sentinel else WriteFailed;
        }
        ReceiveOne(spec, written, consumed, output, closed, budget);
        output := output[1..];
        consumed := consumed + 1;
        written := written + [buffer.value];
        budget := budget - 1;
      }
      ReceiveLast(spec, written, consumed, output, closed, budget);
      exit := if closed then QueueDrained else Waiting;
    }
  }
}
