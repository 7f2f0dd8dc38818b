/**
 * The websocket gate (gate/websocket/server.go and gate/websocket/conn.go):
 * a server that admits upgraded connections up to a ceiling, an ID-keyed
 * registry of live connections, and per-connection state (a closed flag, a
 * bounded output queue and the write loop that drains it).
 *
 * Each method is one atomic step. Goroutines, mutexes, the wait group and the
 * context are not modelled; the transport is an opaque handle whose `Close`
 * calls are counted.
 */
module WebsocketGate {
  import opened Common
  import opened WsPump
  import Dispatch

  /** `DefaultAddress` and `DefaultMaxConns`. */
  const DefaultAddress: string := ":8000"
  const DefaultMaxConns: int := 1024

  /** `bufferedSize`: capacity of a connection's output queue. */
  const BufferedSize: nat := 128

  /** The gate options this model uses (`gate.Options` without logger, ID function and dispatcher). */
  datatype GateOptions = GateOptions(address: string, maxConns: int)

  /** What `NewWsServer` uses when no option overrides it. */
  const DefaultOptions: GateOptions := GateOptions(DefaultAddress, DefaultMaxConns)

  datatype WriteError = WriteClosed(session: uint64) | WriteFullBuffer(session: uint64)

  datatype LoadError = ConnectionDoNotExist

  /**
   * The handler's ceiling test, as written: it refuses only when the count is
   * strictly above `maxConns`, so with `maxConns` connections registered one
   * more is still admitted.
   */
  function Admits(count: int, maxConns: int): (ok: bool)
  {
    !(count > maxConns)
  }

  /** The ceiling as written lets the registry reach `maxConns + 1`, and no further. */
  lemma AdmitsOneOverCeiling(maxConns: int)
    ensures Admits(maxConns, maxConns)
    ensures !Admits(maxConns + 1, maxConns)
  {
  }

  /** `wmessage`: a frame read from a connection, to be put to the dispatcher. */
  datatype WMessage = WMessage(conn: WsConnection, data: Bytes, name: string)
  {
    /** `Key`: the routing key is the connection's ID. */
    function Key(): uint64
    {
      conn.id
    }

    /** The message as the dispatcher sees it. */
    function ToDispatch(): (m: Dispatch.Message)
      ensures m.key == conn.id && m.name == name && m.payload == data
    {
      Dispatch.Message(Key(), name, data)
    }
  }

  /** All messages read from one connection go to one dispatcher queue. */
  lemma OneConnectionOnePartition(m1: WMessage, m2: WMessage, partitions: int)
    requires partitions > 0 && m1.conn == m2.conn
    ensures Dispatch.Partition(m1.ToDispatch().key, partitions)
         == Dispatch.Partition(m2.ToDispatch().key, partitions)
  {
  }

  /**
   * What `Remove` does to `Count`: removing a registered ID lowers the
   * count by one, removing an absent one leaves it as it was.
   */
  lemma RemoveLowersCount(conns: map<uint64, WsConnection>, id: uint64)
    ensures |(conns - {id}).Keys| == |conns.Keys| - (if id in conns then 1 else 0)
  {
    if id in conns {
      assert conns.Keys == (conns - {id}).Keys + {id};
    } else {
      assert (conns - {id}).Keys == conns.Keys;
    }
  }

  /** `connMgr`: live connections keyed by their ID. */
  class ConnMgr {
    var conns: map<uint64, WsConnection>

    /** Each connection is stored under its own ID and belongs to this manager's server. */
    ghost predicate Valid()
      reads this
    {
      forall id :: id in conns ==> conns[id].id == id && conns[id].belong.cmgr == this
    }

    /** `newConnMgr`: no connections. */
    constructor ()
      ensures Valid() && conns == map[]
    {
      conns := map[];
    }

    /** `Count`: the number of registered connections. */
    function Count(): (n: nat)
      reads this
      ensures n == |conns.Keys|
    {
      |conns|
    }

    /**
     * `Add`: the connection is stored under its own ID, replacing any entry
     * with that ID; the count grows by one only for a new ID.
     */
    method Add(conn: WsConnection)
      requires Valid() && conn.belong.cmgr == this
      modifies this
      ensures Valid()
      ensures conns == old(conns)[conn.id := conn]
      ensures Count() == old(Count()) + (if conn.id in old(conns) then 0 else 1)
    {
      conns := conns[conn.id := conn];
    }

    /** `Remove`: only `id` goes; removing an absent ID changes nothing. */
    method Remove(id: uint64)
      requires Valid()
      modifies this
      ensures Valid()
      ensures conns == old(conns) - {id}
      ensures id !in old(conns) ==> conns == old(conns)
      ensures conns.Keys == old(conns).Keys - {id}
    {
      conns := conns - {id};
    }

    /** `Load`: the connection stored under `id`, or an error. */
    function Load(id: uint64): (r: Result<WsConnection, LoadError>)
      requires Valid()
      reads this
      ensures r.Ok? <==> id in conns
      ensures r.Ok? ==> r.value == conns[id] && r.value.id == id
      ensures r.Err? ==> r.error == ConnectionDoNotExist
    {
      if id in conns then Ok(conns[id]) else Err(ConnectionDoNotExist)
    }

    /**
     * `Close`: take a snapshot of the registry, then call `Close` on each
     * snapshotted connection exactly once. Every connection ends closed;
     * those that were open have removed themselves, and nothing is added.
     */
    method Close()
      requires Valid()
      requires forall id :: id in conns ==> conns[id].Valid()
      modifies this, conns.Values
      ensures Valid()
      ensures forall id :: id in conns ==> id in old(conns) && conns[id] == old(conns[id])
      ensures forall id :: id in old(conns) && !old(conns[id].isClosed) ==> id !in conns
      ensures forall id :: id in old(conns) && old(conns[id].isClosed) ==> id in conns
      ensures forall c :: c in old(conns.Values) ==>
        c.Valid() && c.isClosed && c.closeCalls == old(c.closeCalls) + 1 && c.output == old(c.output)
    {
      var snapshot := conns;
      forall c | c in snapshot.Values
        ensures c.id in snapshot && snapshot[c.id] == c
      {
        var id :| id in snapshot && snapshot[id] == c;
      }
      var order := Enumerate(snapshot.Values);
      forall j | 0 <= j < |order|
        ensures order[j].belong.cmgr == this && order[j].Valid()
      {
        assert order[j] in snapshot.Values;
        assert snapshot[order[j].id] == order[j];
      }
      CloseEach(order);
      forall id | id in old(conns) && !old(conns[id].isClosed)
        ensures id !in conns
      {
        assert snapshot[id] in order;
        var j :| 0 <= j < |order| && order[j] == snapshot[id];
        assert order[j].id == id;
      }
      forall id | id in old(conns) && old(conns[id].isClosed)
        ensures id in conns
      {
        forall j | 0 <= j < |order| && order[j].id == id
          ensures old(order[j].isClosed)
        {
          assert order[j] in snapshot.Values;
          assert snapshot[id] == order[j];
        }
      }
    }

    /** The second half of `Close`: `Close` each connection of the snapshot, in its order, once. */
    method CloseEach(order: seq<WsConnection>)
      requires Valid() && NoDuplicates(order)
      requires forall j :: 0 <= j < |order| ==> order[j].belong.cmgr == this && order[j].Valid()
      modifies this, order
      ensures Valid()
      ensures forall id :: id in conns ==> id in old(conns) && conns[id] == old(conns[id])
      ensures forall j :: 0 <= j < |order| ==>
        && order[j].Valid() && order[j].isClosed
        && order[j].closeCalls == old(order[j].closeCalls) + 1
        && order[j].output == old(order[j].output)
        && (!old(order[j].isClosed) ==> order[j].id !in conns)
      ensures forall id :: id in old(conns) && id !in conns ==>
        exists j :: 0 <= j < |order| && order[j].id == id && !old(order[j].isClosed)
    {
      var k := 0;
      while k < |order|
        invariant 0 <= k <= |order|
        invariant Valid()
        invariant forall id :: id in conns ==> id in old(conns) && conns[id] == old(conns[id])
        invariant forall j :: 0 <= j < |order| ==> order[j].Valid() && order[j].output == old(order[j].output)
        invariant forall id :: id in old(conns) && id !in conns ==>
          exists j :: 0 <= j < k && order[j].id == id && !old(order[j].isClosed)
        invariant forall j :: 0 <= j < k ==>
          && order[j].isClosed
          && order[j].closeCalls == old(order[j].closeCalls) + 1
          && (!old(order[j].isClosed) ==> order[j].id !in conns)
        invariant forall j :: k <= j < |order| ==>
          && order[j].isClosed == old(order[j].isClosed)
          && order[j].closeCalls == old(order[j].closeCalls)
      {
        ghost var before := conns;
        order[k].Close();
        assert forall id :: id in before && id !in conns ==> id == order[k].id && !old(order[k].isClosed);
        k := k + 1;
      }
    }
  }

  /** `WsServer`: its options and its registry. */
  class WsServer {
    const options: GateOptions
    const cmgr: ConnMgr
    /** How many upgraded transports the handler refused and left open. */
    ghost var leftOpen: nat

    /** `NewWsServer`: the given options and an empty registry. */
    constructor (options: GateOptions)
      ensures this.options == options && fresh(cmgr)
      ensures cmgr.Valid() && cmgr.conns == map[] && leftOpen == 0
    {
      this.options := options;
      cmgr := new ConnMgr();
      leftOpen := 0;
    }

    /**
     * `wsHandler` after the upgrade: a failed upgrade creates nothing; a
     * registry already holding more than `maxConns` connections refuses;
     * otherwise a new connection with the generated ID `uid` is created and
     * registered. The test runs after the upgrade and is strict, so the
     * registry can hold `maxConns + 1` connections. A refused connection's
     * transport was already upgraded, and the handler returns without
     * closing it.
     */
    method HandleUpgrade(upgraded: bool, uid: uint64) returns (c: WsConnection?)
      requires cmgr.Valid()
      modifies cmgr, this`leftOpen
      ensures cmgr.Valid()
      ensures c != null <==> upgraded && Admits(old(cmgr.Count()), options.maxConns)
      ensures leftOpen == old(leftOpen) + (if upgraded && c == null then 1 else 0)
      ensures c == null ==> cmgr.conns == old(cmgr.conns)
      ensures c != null ==>
        && fresh(c) && c.Valid() && c.id == uid && c.belong == this
        && !c.isClosed && c.output == []
        && cmgr.conns == old(cmgr.conns)[uid := c]
      ensures old(cmgr.Count()) <= options.maxConns + 1 ==> cmgr.Count() <= options.maxConns + 1
    {
      if !upgraded {
        return null;
      }
      if cmgr.Count() > options.maxConns {
        leftOpen := leftOpen + 1;
        return null;
      }
      c := new WsConnection(this, uid);
    }
  }

  /** `WsConnection`: one websocket session. */
  class WsConnection {
    const id: uint64
    const belong: WsServer
    /** The buffered `output` channel, head first. */
    var output: seq<Bytes>
    /** Whether `close(output)` has run. */
    var outputClosed: bool
    var isClosed: bool
    /** Whether the context has been cancelled. */
    var cancelled: bool
    /** How many times the transport's `Close` was called. */
    ghost var transportCloses: nat
    /** How many times `Close` was called on this connection. */
    ghost var closeCalls: nat

    /**
     * The queue is within its capacity; the queue, the context and the
     * transport are all closed together with the flag, the transport once.
     */
    ghost predicate Valid()
      reads this
    {
      && |output| <= BufferedSize
      && outputClosed == isClosed
      && cancelled == isClosed
      && transportCloses == (if isClosed then 1 else 0)
    }

    /**
     * `NewConnection`: an open connection with the generated ID, an empty
     * output queue of capacity `BufferedSize`, registered in its server's
     * registry under its ID.
     */
    constructor (srv: WsServer, uid: uint64)
      requires srv.cmgr.Valid()
      modifies srv.cmgr
      ensures Valid() && id == uid && belong == srv
      ensures output == [] && !isClosed && closeCalls == 0
      ensures srv.cmgr.Valid() && srv.cmgr.conns == old(srv.cmgr.conns)[uid := this]
    {
      id := uid;
      belong := srv;
      output := [];
      outputClosed := false;
      isClosed := false;
      cancelled := false;
      transportCloses := 0;
      closeCalls := 0;
      new;
      srv.cmgr.Add(this);
    }

    /**
     * `Close`: idempotent. Only the first call closes the transport, closes
     * the output queue, sets the flag, removes the ID from the registry and
     * cancels the context; later calls change nothing. Queued buffers stay
     * in the closed queue for the write loop.
     */
    method Close()
      requires Valid() && belong.cmgr.Valid()
      modifies this, belong.cmgr
      ensures Valid() && belong.cmgr.Valid()
      ensures isClosed && output == old(output)
      ensures closeCalls == old(closeCalls) + 1
      ensures old(isClosed) ==> transportCloses == old(transportCloses) && belong.cmgr.conns == old(belong.cmgr.conns)
      ensures !old(isClosed) ==> transportCloses == old(transportCloses) + 1 && belong.cmgr.conns == old(belong.cmgr.conns) - {id}
    {
      closeCalls := closeCalls + 1;
      if isClosed {
        return;
      }
      transportCloses := transportCloses + 1;
      outputClosed := true;
      isClosed := true;
      belong.cmgr.Remove(id);
      cancelled := true;
    }

    /**
     * `Write`: never blocks. A closed connection and a full queue are errors
     * that leave the queue as it was; otherwise the buffer joins the tail.
     */
    method Write(buffer: Bytes) returns (r: Outcome<WriteError>)
      requires Valid()
      modifies this`output
      ensures Valid()
      ensures old(isClosed) ==> r == Fail(WriteClosed(id))
      ensures !old(isClosed) && |old(output)| == BufferedSize ==> r == Fail(WriteFullBuffer(id))
      ensures r.Fail? ==> output == old(output)
      ensures r.Pass? <==> !old(isClosed) && |old(output)| < BufferedSize
      ensures r.Pass? ==> output == old(output) + [buffer]
    {
      if isClosed {
        return Fail(WriteClosed(id));
      }
      if |output| == BufferedSize {
        return Fail(WriteFullBuffer(id));
      }
      output := output + [buffer];
      r := Pass;
    }

    /**
     * `writeLoop` until it waits or exits: it writes what `Pump` says, in
     * queue order, and leaves the undequeued rest in the queue. `accepted`
     * is how many writes an open transport takes; `Close` shuts the
     * transport before it closes the queue, so on a closed connection no
     * write succeeds and no binary frame goes out. On any exit other than
     * waiting, its deferred `Close` runs.
     */
    method WriteLoop(picks: seq<bool>, accepted: nat) returns (frames: seq<Frame>, exit: PumpExit)
      requires Valid() && belong.cmgr.Valid()
      modifies this, belong.cmgr
      ensures Valid() && belong.cmgr.Valid()
      ensures var r := Pump(old(output), old(isClosed), picks, if old(isClosed) then 0 else accepted);
        frames == r.frames && exit == r.exit && output == old(output)[r.consumed..]
      ensures old(isClosed) ==> forall f :: f in frames ==> f == CloseFrame
      ensures exit == Blocked ==> !isClosed && belong.cmgr.conns == old(belong.cmgr.conns) && closeCalls == old(closeCalls)
      ensures exit != Blocked ==> isClosed && closeCalls == old(closeCalls) + 1
      ensures exit != Blocked ==>
        belong.cmgr.conns == if old(isClosed) then old(belong.cmgr.conns) else old(belong.cmgr.conns) - {id}
    {
      ghost var q := output;
      frames, exit := SendQueued(picks, if isClosed then 0 else accepted);
      if isClosed {
        PumpOnClosedTransport(q, picks);
      }
      if exit != Blocked {
        Close();
      }
    }

    /** The body of `writeLoop`: dequeue and write until the loop would wait or return. */
    method SendQueued(picks: seq<bool>, accepted: nat) returns (frames: seq<Frame>, exit: PumpExit)
      requires Valid()
      modifies this`output
      ensures Valid()
      ensures var r := Pump(old(output), isClosed, picks, accepted);
        frames == r.frames && exit == r.exit && output == old(output)[r.consumed..]
    {
      ghost var spec := Pump(output, isClosed, picks, accepted);
      frames := [];
      exit := Blocked;
      var consumed := 0;
      var p := picks;
      var budget := accepted;
      var running := true;
      while running
        invariant Valid()
        invariant consumed <= |old(output)| && output == old(output)[consumed..]
        invariant running ==> spec == After(frames, consumed, Pump(output, isClosed, p, budget))
        invariant !running ==> spec == PumpResult(frames, consumed, exit)
        decreases running, |output|
      {
        if isClosed && PickDone(p) {
          PumpLast(spec, frames, consumed, output, isClosed, p, budget);
          exit := Cancelled;
          running := false;
        } else if output == [] {
          PumpLast(spec, frames, consumed, output, isClosed, p, budget);
          if isClosed {
            frames := frames + [CloseFrame];
            exit := QueueClosed;
          } else {
            exit := Blocked;
          }
          running := false;
        } else {
          var buffer := output[0];
          if budget == 0 {
            PumpLast(spec, frames, consumed, output, isClosed, p, budget);
          } else {
            PumpOne(spec, frames, consumed, output, isClosed, p, budget);
          }
          output := output[1..];
          consumed := consumed + 1;
          if budget == 0 {
            exit := WriteFailed;
            running := false;
          } else {
            frames := frames + [BinaryFrame(buffer)];
            budget := budget - 1;
            p := RestPicks(p);
          }
        }
      }
    }
  }
}
