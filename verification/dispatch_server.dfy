/**
 * The partitioned dispatcher (dispatch/server.go): a fixed slice of bounded
 * FIFO queues, one worker per queue, and an exit signal. A message goes to
 * queue `key mod partitions`, so all messages with one key are handled by one
 * worker in the order they were put.
 *
 * Each operation is one atomic step of a sequential state machine. A worker
 * goroutine is a count in `workers` (what the wait group tracks), and when a
 * worker's `select` finds both its queue and the exit channel ready, the case
 * it takes is an input.
 */
module Dispatch {
  import opened Common
  import opened DispatchRouter

  /** `DefaultPartitions` and `DefaultQueueCap`. */
  const DefaultPartitions: int := 8
  const DefaultQueueCap: int := 4096

  /** The dispatcher's configuration (`Options` without its logger). */
  datatype Options = Options(queueCap: int, partitions: int)

  /** What `NewDispatcher` uses when no option overrides it. */
  const DefaultOptions: Options := Options(DefaultQueueCap, DefaultPartitions)

  /**
   * An inbound application message. `key` is the ordering domain, `name`
   * selects the handler. The source's message also has a `Conn()` accessor
   * for its connection; the dispatcher never calls it, so it is not modelled.
   */
  datatype Message = Message(key: uint64, name: string, payload: Bytes)

  datatype DispatchError = DispatchExit

  /** What one iteration of a worker's pump loop does. */
  datatype StepResult =
    | Quit                                     // the exit signal was seen
    | Idle                                     // the queue is empty: the worker waits
    | Dropped(msg: Message)                    // dequeued, but no handler has its name
    | Handled(msg: Message, handler: Handler)  // dequeued and given to its handler

  /** `partition`: the queue a key goes to. */
  function Partition(key: uint64, size: int): (p: nat)
    requires size > 0
    ensures p < size
  {
    (key as int) % size
  }

  /** Keys that are congruent modulo the number of queues share a queue. */
  lemma CongruentKeysSharePartition(k1: uint64, k2: uint64, size: int)
    requires size > 0
    requires (k1 as int - k2 as int) % size == 0
    ensures Partition(k1, size) == Partition(k2, size)
  {
    var a, b := k1 as int, k2 as int;
    var d := (a - b) / size;
    assert a - b == d * size;
    var q1, q2 := a / size, b / size;
    assert a == q1 * size + Partition(k1, size);
    assert b == q2 * size + Partition(k2, size);
    var e := d - q1 + q2;
    assert Partition(k1, size) - Partition(k2, size) == e * size;
    MultipleOutOfRange(e, size);
  }

  /** A nonzero multiple of `size` is at least `size` away from 0. */
  lemma MultipleOutOfRange(e: int, size: int)
    requires size > 0
    ensures e == 0 || e * size >= size || e * size <= -size
  {
    if e > 0 {
      PositiveMultiple(e, size);
    } else if e < 0 {
      PositiveMultiple(-e, size);
      assert e * size == -((-e) * size);
    }
  }

  lemma {:induction false} PositiveMultiple(e: int, size: int)
    requires size > 0 && e >= 1
    ensures e * size >= size
    decreases e
  {
    if e > 1 {
      PositiveMultiple(e - 1, size);
      assert e * size == (e - 1) * size + size;
    }
  }

  /** The messages of `s` that belong to queue `p`, in their order in `s`. */
  function OfPartition(s: seq<Message>, p: nat, n: int): (r: seq<Message>)
    requires n > 0
    ensures |r| <= |s|
    ensures forall m :: m in r ==> m in s && Partition(m.key, n) == p
  {
    if s == [] then []
    else (if Partition(s[0].key, n) == p then [s[0]] else []) + OfPartition(s[1..], p, n)
  }

  /** The messages of `s` that carry key `k`, in their order in `s`. */
  function OfKey(s: seq<Message>, k: uint64): (r: seq<Message>)
    ensures |r| <= |s|
    ensures forall m :: m in r ==> m in s && m.key == k
  {
    if s == [] then []
    else (if s[0].key == k then [s[0]] else []) + OfKey(s[1..], k)
  }

  lemma {:induction false} OfPartitionAppend(a: seq<Message>, b: seq<Message>, p: nat, n: int)
    requires n > 0
    ensures OfPartition(a + b, p, n) == OfPartition(a, p, n) + OfPartition(b, p, n)
  {
    if a == [] {
      assert a + b == b;
    } else {
      assert (a + b)[1..] == a[1..] + b;
      OfPartitionAppend(a[1..], b, p, n);
    }
  }

  lemma {:induction false} OfKeyAppend(a: seq<Message>, b: seq<Message>, k: uint64)
    ensures OfKey(a + b, k) == OfKey(a, k) + OfKey(b, k)
  {
    if a == [] {
      assert a + b == b;
    } else {
      assert (a + b)[1..] == a[1..] + b;
      OfKeyAppend(a[1..], b, k);
    }
  }

  /** Restricting to a key's own queue first loses none of that key's messages. */
  lemma {:induction false} OfKeyWithinPartition(s: seq<Message>, k: uint64, n: int)
    requires n > 0
    ensures OfKey(OfPartition(s, Partition(k, n), n), k) == OfKey(s, k)
  {
    if s != [] {
      var p := Partition(k, n);
      OfKeyWithinPartition(s[1..], k, n);
      var head := if Partition(s[0].key, n) == p then [s[0]] else [];
      OfKeyAppend(head, OfPartition(s[1..], p, n), k);
      if s[0].key == k {
        assert head == [s[0]];
      } else {
        assert OfKey(head, k) == [] by {
          if head != [] {
            assert head[1..] == [];
          }
        }
      }
    }
  }

  /**
   * Per-key FIFO. If a queue's share of what was accepted is what its worker
   * took followed by what it still holds, then for every key that maps to
   * that queue, the messages taken are an in-order prefix of the messages
   * accepted, and the rest are still queued in order.
   */
  lemma PerKeyFifo(accepted: seq<Message>, taken: seq<Message>, queue: seq<Message>, k: uint64, n: int)
    requires n > 0
    requires OfPartition(accepted, Partition(k, n), n) == OfPartition(taken, Partition(k, n), n) + queue
    ensures OfKey(accepted, k) == OfKey(taken, k) + OfKey(queue, k)
    ensures OfKey(taken, k) <= OfKey(accepted, k)
  {
    var p := Partition(k, n);
    OfKeyWithinPartition(accepted, k, n);
    OfKeyWithinPartition(taken, k, n);
    OfKeyAppend(OfPartition(taken, p, n), queue, k);
  }

  /**
   * Queue `p` of `n` holds only its own keys, and its share of what was
   * accepted is exactly what its worker took followed by what it still holds.
   */
  ghost predicate Accounted(accepted: seq<Message>, taken: seq<Message>, queue: seq<Message>, p: nat, n: int)
    requires n > 0
  {
    && (forall j :: 0 <= j < |queue| ==> Partition(queue[j].key, n) == p)
    && OfPartition(accepted, p, n) == OfPartition(taken, p, n) + queue
  }

  ghost predicate AllAccounted(accepted: seq<Message>, taken: seq<Message>, queues: seq<seq<Message>>)
    requires |queues| > 0
  {
    forall p :: 0 <= p < |queues| ==> Accounted(accepted, taken, queues[p], p, |queues|)
  }

  /** Appending one message to a sequence appends it to the share of its own queue only. */
  lemma OfPartitionSnoc(s: seq<Message>, msg: Message, p: nat, n: int)
    requires n > 0
    ensures OfPartition(s + [msg], p, n)
      == OfPartition(s, p, n) + (if Partition(msg.key, n) == p then [msg] else [])
  {
    OfPartitionAppend(s, [msg], p, n);
    assert [msg][1..] == [];
  }

  /** Accepting a message: its own queue grows by it at the tail, any other queue is unaffected. */
  lemma PutOneKeepsAccounted(accepted: seq<Message>, taken: seq<Message>, queue: seq<Message>, msg: Message, p: nat, n: int)
    requires n > 0 && Accounted(accepted, taken, queue, p, n)
    ensures Accounted(accepted + [msg], taken, if Partition(msg.key, n) == p then queue + [msg] else queue, p, n)
  {
    OfPartitionSnoc(accepted, msg, p, n);
    if Partition(msg.key, n) == p {
      assert OfPartition(taken, p, n) + (queue + [msg]) == (OfPartition(taken, p, n) + queue) + [msg];
    }
  }

  /** Accepting a message into the tail of its own queue keeps every queue accounted for. */
  lemma PutKeepsAccounted(accepted: seq<Message>, taken: seq<Message>, queues: seq<seq<Message>>, msg: Message)
    requires |queues| > 0 && AllAccounted(accepted, taken, queues)
    ensures var q := Partition(msg.key, |queues|);
      AllAccounted(accepted + [msg], taken, queues[q := queues[q] + [msg]])
  {
    var n := |queues|;
    var q := Partition(msg.key, n);
    var queues' := queues[q := queues[q] + [msg]];
    forall p | 0 <= p < n
      ensures Accounted(accepted + [msg], taken, queues'[p], p, n)
    {
      assert Accounted(accepted, taken, queues[p], p, n);
      PutOneKeepsAccounted(accepted, taken, queues[p], msg, p, n);
    }
  }

  /** The worker of queue `p` taking its head keeps that queue accounted for. */
  lemma TakeHeadKeepsAccounted(accepted: seq<Message>, taken: seq<Message>, queue: seq<Message>, p: nat, n: int)
    requires n > 0 && Accounted(accepted, taken, queue, p, n) && queue != []
    ensures Accounted(accepted, taken + [queue[0]], queue[1..], p, n)
  {
    var before := OfPartition(taken, p, n);
    assert Partition(queue[0].key, n) == p;
    OfPartitionSnoc(taken, queue[0], p, n);
    assert queue == [queue[0]] + queue[1..];
    assert (before + [queue[0]]) + queue[1..] == before + queue;
  }

  /** A message of another queue being taken leaves queue `p` accounted for. */
  lemma TakeOtherKeepsAccounted(accepted: seq<Message>, taken: seq<Message>, queue: seq<Message>, msg: Message, p: nat, n: int)
    requires n > 0 && Accounted(accepted, taken, queue, p, n) && Partition(msg.key, n) != p
    ensures Accounted(accepted, taken + [msg], queue, p, n)
  {
    OfPartitionSnoc(taken, msg, p, n);
  }

  /** A worker taking the head of its own queue keeps every queue accounted for. */
  lemma TakeKeepsAccounted(accepted: seq<Message>, taken: seq<Message>, queues: seq<seq<Message>>, i: int)
    requires |queues| > 0 && AllAccounted(accepted, taken, queues)
    requires 0 <= i < |queues| && queues[i] != []
    ensures AllAccounted(accepted, taken + [queues[i][0]], queues[i := queues[i][1..]])
  {
    var n := |queues|;
    var msg := queues[i][0];
    var queues' := queues[i := queues[i][1..]];
    assert Accounted(accepted, taken, queues[i], i, n);
    assert Partition(msg.key, n) == i;
    forall p | 0 <= p < n
      ensures Accounted(accepted, taken + [msg], queues'[p], p, n)
    {
      assert Accounted(accepted, taken, queues[p], p, n);
      if p == i {
        TakeHeadKeepsAccounted(accepted, taken, queues[i], i, n);
      } else {
        TakeOtherKeepsAccounted(accepted, taken, queues[p], msg, p, n);
      }
    }
  }

  class Dispatcher {
    const queueCap: int
    const partitions: int
    const router: Router
    /** The buffered channels `queues[i]`, head first. */
    var queues: seq<seq<Message>>
    /** Whether `close(queues[i])` has run. */
    var closedQueues: seq<bool>
    /** Whether `exitChan` is closed. */
    var exited: bool
    /** How many `handlePump` goroutines are running on each queue. */
    var workers: seq<nat>
    /** Every message `Put` accepted, in acceptance order. */
    ghost var accepted: seq<Message>
    /** Every message a worker dequeued, in dequeue order. */
    ghost var taken: seq<Message>

    ghost predicate Valid()
      reads this
    {
      && partitions >= 0
      && |queues| == partitions
      && |closedQueues| == partitions
      && |workers| == partitions
      && (forall p :: 0 <= p < partitions ==> |queues[p]| <= queueCap)
      && (forall p :: 0 <= p < partitions && closedQueues[p] ==> exited)
      && (partitions == 0 ==> accepted == [] && taken == [])
      && (partitions > 0 ==> AllAccounted(accepted, taken, queues))
    }

    /**
     * `NewDispatcher`: exactly `partitions` open, empty queues of capacity
     * `queueCap`, the exit signal open, and an empty router. A negative size
     * makes Go's `make` panic, hence the precondition.
     */
    constructor (options: Options)
      requires options.partitions >= 0 && (options.partitions > 0 ==> options.queueCap >= 0)
      ensures Valid() && fresh(router)
      ensures partitions == options.partitions && queueCap == options.queueCap
      ensures |queues| == partitions && forall p :: 0 <= p < partitions ==> queues[p] == []
      ensures forall p :: 0 <= p < partitions ==> !closedQueues[p]
      ensures |workers| == partitions && forall p :: 0 <= p < partitions ==> workers[p] == 0
      ensures !exited && router.m == map[]
      ensures accepted == [] && taken == []
    {
      partitions := options.partitions;
      queueCap := options.queueCap;
      var qs: seq<seq<Message>> := [];
      var i := 0;
      while i < options.partitions
        invariant 0 <= i <= options.partitions
        invariant |qs| == i
        invariant forall p :: 0 <= p < i ==> qs[p] == []
      {
        qs := qs + [[]];
        i := i + 1;
      }
      queues := qs;
      closedQueues := seq(options.partitions, _ => false);
      workers := seq(options.partitions, _ => 0);
      exited := false;
      router := new Router();
      accepted := [];
      taken := [];
    }

    /** `Handle`: register a handler with the router. */
    method Handle(name: string, handler: Handler) returns (r: Outcome<RouterError>)
      modifies router
      ensures r.Fail? <==> name in old(router.m)
      ensures r.Fail? ==> router.m == old(router.m)
      ensures r.Pass? ==> router.m == old(router.m)[name := handler]
    {
      r := router.Register(name, handler);
    }

    /**
     * `Put`: after `Stop` the exit signal fails the call and nothing is
     * queued; otherwise the message goes to the tail of its key's queue and
     * no other queue changes. The send blocks while that queue is full;
     * the model takes "not full" as the caller's obligation.
     */
    method Put(msg: Message) returns (r: Outcome<DispatchError>)
      requires Valid() && partitions > 0
      requires !exited ==> |queues[Partition(msg.key, partitions)]| < queueCap
      modifies this`queues, this`accepted
      ensures Valid()
      ensures r.Fail? <==> old(exited)
      ensures r.Fail? ==> r.error == DispatchExit && queues == old(queues) && accepted == old(accepted)
      ensures r.Pass? ==>
        var p := Partition(msg.key, partitions);
        queues == old(queues)[p := old(queues)[p] + [msg]] && accepted == old(accepted) + [msg]
      ensures exited == old(exited) && closedQueues == old(closedQueues) && taken == old(taken)
      ensures workers == old(workers)
    {
      var index := Partition(msg.key, |queues|);
      if exited {
        return Fail(DispatchExit);
      }
      PutKeepsAccounted(accepted, taken, queues, msg);
      queues := queues[index := queues[index] + [msg]];
      accepted := accepted + [msg];
      r := Pass;
    }

    /**
     * `doHandle`: the handler registered under the message's name gets it;
     * a message whose name is unknown is dropped without failing.
     */
    function DoHandle(msg: Message): (r: StepResult)
      reads router
      ensures (r.Handled? || r.Dropped?) && r.msg == msg
      ensures r.Handled? <==> msg.name in router.m
      ensures r.Handled? ==> r.handler == router.m[msg.name]
    {
      match router.Fetch(msg.name)
      case Some(h) => Handled(msg, h)
      case None => Dropped(msg)
    }

    /** `Start`: one more `handlePump` goroutine on every queue. */
    method Start()
      requires Valid()
      modifies this`workers
      ensures Valid()
      ensures |workers| == partitions && forall p :: 0 <= p < partitions ==> workers[p] == old(workers[p]) + 1
    {
      var i := 0;
      while i < |queues|
        invariant 0 <= i <= |queues| && |workers| == partitions
        invariant forall p :: 0 <= p < i ==> workers[p] == old(workers[p]) + 1
        invariant forall p :: i <= p < partitions ==> workers[p] == old(workers[p])
      {
        workers := workers[i := workers[i] + 1];
        i := i + 1;
      }
    }

    /**
     * One iteration of a running `handlePump(i)`. Its `select` waits on its
     * queue and on the exit signal. On an empty queue it waits until the exit
     * signal, and then quits. Once the exit signal is closed and the queue
     * still holds messages, both cases are ready and `pickQueue` says which
     * one Go takes: the queue, whose head is then handled as before the
     * signal, or the exit signal. A worker that quits leaves the wait group.
     */
    method Step(i: int, pickQueue: bool) returns (r: StepResult)
      requires Valid() && 0 <= i < partitions && workers[i] > 0
      modifies this`queues, this`taken, this`workers
      ensures Valid()
      ensures r == Quit <==> old(exited) && (old(queues[i]) == [] || !pickQueue)
      ensures r == Idle <==> !old(exited) && old(queues[i]) == []
      ensures r == Quit ==> workers == old(workers)[i := old(workers[i]) - 1]
      ensures r != Quit ==> workers == old(workers)
      ensures (r == Quit || r == Idle) ==> queues == old(queues) && taken == old(taken)
      ensures old(queues[i]) != [] && (!old(exited) || pickQueue) ==>
        && queues == old(queues)[i := old(queues[i])[1..]]
        && taken == old(taken) + [old(queues[i])[0]]
        && r == DoHandle(old(queues[i])[0])
      ensures exited == old(exited) && closedQueues == old(closedQueues) && accepted == old(accepted)
    {
      if queues[i] == [] {
        if exited {
          workers := workers[i := workers[i] - 1];
          return Quit;
        }
        return Idle;
      }
      if exited && !pickQueue {
        workers := workers[i := workers[i] - 1];
        return Quit;
      }
      var msg := queues[i][0];
      TakeKeepsAccounted(accepted, taken, queues, i);
      queues := queues[i := queues[i][1..]];
      taken := taken + [msg];
      r := DoHandle(msg);
    }

    /**
     * `Stop`, up to its wait: close the exit signal. Workers may still take
     * messages until they quit. Closing the exit channel a second time
     * panics in Go, hence the precondition.
     */
    method SignalExit()
      requires Valid() && !exited
      modifies this`exited
      ensures Valid() && exited
    {
      exited := true;
    }

    /**
     * `Stop`, after its wait: once every worker has quit (the wait group's
     * `Wait`), close every queue. Messages still queued stay there,
     * abandoned. Closing a closed queue panics in Go, hence the precondition.
     */
    method CloseQueues()
      requires Valid() && exited
      requires forall p :: 0 <= p < partitions ==> workers[p] == 0 && !closedQueues[p]
      modifies this`closedQueues
      ensures Valid()
      ensures |closedQueues| == partitions && forall p :: 0 <= p < partitions ==> closedQueues[p]
    {
      var i := 0;
      while i < |queues|
        invariant 0 <= i <= |queues|
        invariant Valid()
        invariant forall p :: 0 <= p < i ==> closedQueues[p]
      {
        closedQueues := closedQueues[i := true];
        i := i + 1;
      }
    }

    /**
     * The dispatcher's ordering guarantee: for every key, the messages its
     * worker has taken are, in order, a prefix of the messages accepted with
     * that key, and the remaining ones wait in its queue in the same order.
     */
    lemma PerKeyOrder(k: uint64)
      requires Valid() && partitions > 0
      ensures OfKey(taken, k) <= OfKey(accepted, k)
      ensures OfKey(accepted, k) == OfKey(taken, k) + OfKey(queues[Partition(k, partitions)], k)
    {
      assert Accounted(accepted, taken, queues[Partition(k, partitions)], Partition(k, partitions), partitions);
      PerKeyFifo(accepted, taken, queues[Partition(k, partitions)], k, partitions);
    }
  }
}
