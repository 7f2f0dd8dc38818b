# badger: connection registries, output queues and the partitioned dispatcher

badger is a Go gateway for long-lived client connections, such as websocket
sessions. This project is a Dafny model of its core, with proofs about it:

- **Router and dispatcher.** The router maps a message name to a handler. The
  dispatcher sends each inbound message to one of a fixed number of bounded
  FIFO queues, chosen by `key mod partitions`. One worker per queue hands
  messages to the router's handlers.
- **Three connection registries:**
  - the websocket gate's `connMgr`, keyed by connection ID, together with its
    `MaxConns` admission test;
  - the identity-keyed `hub`;
  - the identity-keyed `ConnMgr`.
- **Two connection types:**
  - The websocket `WsConnection`. It has an idempotent `Close`, a `Write` that
    never blocks, and a write loop that drains a bounded queue.
  - The package-level `Connection`. It has a property store, a `Write` and a
    `Close` that enqueue onto a bounded queue, an idempotent `release`, and a
    write loop that stops at a nil sentinel.

Each operation is modelled as one atomic step, and the model's guarantees
are about sequences of such steps. The source does not make every operation
atomic: some hold a mutex, others do not (see "## Left out"). Objects whose
fields the source updates become classes:

- Go buffered channels become `seq` fields plus a "closed" flag.
- Go maps become `map` or `set` fields.
- Counters that the proofs need are ghost fields. These count transport
  closes and `Close` calls, and record the messages accepted and taken by the
  dispatcher.

Inputs the model cannot see become parameters:

- the ID generator's output (`uid`);
- whether the transport upgrade succeeded;
- how many writes the transport accepts before failing;
- which case a Go `select` takes when both of its cases are ready: `picks`
  in the websocket write loop, `pickQueue` in the dispatcher's worker.

Go has two ways of failing here:
- **Explicit `panic` calls.** There are two: a duplicate router registration
  and `Write(nil)`. Each becomes an error result that leaves the state
  unchanged.
- **Runtime blocking and panics.** These are a send on a full channel, `%` by
  zero, closing a closed channel, and `make` with a negative size. Each
  becomes a precondition on the caller.

Modules:
- `Common` (common.dfy): Go integer types, byte slices, result types, and
  `Enumerate`, the model of a `range` over a map or set: each element exactly
  once, in no fixed order.
- `DispatchRouter` (dispatch_router.dfy): dispatch/router.go.
- `Dispatch` (dispatch_server.dfy): dispatch/server.go.
- `WsPump` (ws_pump.dfy): the write loop of gate/websocket/conn.go, as a
  function of the queue.
- `WebsocketGate` (ws_gate.dfy): gate/websocket/server.go and
  gate/websocket/conn.go. They share one module because a connection and its
  server refer to each other.
- `BadgerConn` (badger_conn.dfy): conn.go.
- `BadgerHub` (badger_hub.dfy): hub.go.
- `BadgerConnMgr` (badger_connmgr.dfy): connmgr.go.

Behaviour of the code worth knowing, which the model keeps:
- The websocket gate refuses a connection only when `Count() > MaxConns`
  (gate/websocket/server.go:121), and only after the upgrade. So
  `MaxConns + 1` connections can be registered
  (`WebsocketGate.AdmitsOneOverCeiling`), and a refused connection's upgraded
  transport is left open.
- `Put` blocks while its queue is full; it never returns a queue-full error
  (dispatch/server.go:69). The model states "not full" as a precondition.
- `Connection.Write` (conn.go:107-117) also blocks on a full queue; it never
  reports a full buffer.
- `Connection.Close` (conn.go:98-105) never sets the closed flag. Each call
  on an open connection enqueues another nil sentinel. Only `release` is
  idempotent.
- After `Stop` closes the exit signal, a worker whose queue still holds
  messages may go on handling them until its `select` picks the exit signal
  (dispatch/server.go:115-124).

## Model

| member | source | states |
|---|---|---|
| DispatchRouter.Router.constructor | dispatch/router.go:8-12 | a new router has an empty handler table |
| DispatchRouter.Router.Fetch | dispatch/router.go:15-20 | returns a handler exactly when the name is registered, and then the handler stored under it; otherwise nil (`None`) |
| DispatchRouter.Router.Register | dispatch/router.go:23-28 | a name already present fails (the panic) and leaves the table unchanged, so the first handler is kept; a fresh name adds that one mapping, `Fetch(name)` then returns the new handler, and every other name fetches what it fetched before |
| Dispatch.Partition | dispatch/server.go:52-54 | for `size > 0` the partition of a key lies in `[0, size)` |
| Dispatch.CongruentKeysSharePartition | dispatch/server.go:52-54 | keys congruent modulo the number of queues go to the same queue |
| Dispatch.Dispatcher.constructor | dispatch/server.go:27-50 | exactly `partitions` queues, each empty, open and bounded by `queueCap`; the exit signal open; an empty router (the defaults 8 and 4096 are `Dispatch.DefaultOptions`, from lines 21-22) |
| Dispatch.Dispatcher.Handle | dispatch/server.go:57-59 | registration through the router: a duplicate name fails and changes nothing; a fresh name adds that mapping |
| Dispatch.Dispatcher.Put | dispatch/server.go:62-73 | once the exit signal is closed, returns the exit error and queues nothing; otherwise appends the message to the tail of queue `Partition(key)`, leaves every other queue and the workers unchanged, and succeeds; the invariant that each queue is what was accepted for it minus what its worker took is kept |
| Dispatch.Dispatcher.DoHandle | dispatch/server.go:101-106 | the message goes to its handler exactly when the router has its name, and to the handler stored under that name; otherwise it is dropped without error |
| Dispatch.Dispatcher.Start | dispatch/server.go:76-84 | one more running worker on every queue, nothing else changes |
| Dispatch.Dispatcher.Step | dispatch/server.go:108-128 | one iteration of a running worker: on an empty queue it waits, or quits once the exit signal is closed; on a non-empty queue before the signal it removes the head of its own queue only, records it as taken, and hands it to `DoHandle`; after the signal, with messages queued, it does the same when the `select` picks the queue and quits when it picks the signal; a worker that quits leaves the running count |
| Dispatch.Dispatcher.SignalExit | dispatch/server.go:87-88 | the first half of `Stop`: the exit signal ends closed; queues and workers are untouched, so workers may still take messages |
| Dispatch.Dispatcher.CloseQueues | dispatch/server.go:90-94 | the second half of `Stop`: only once every worker has quit (the wait) and with the exit signal closed, every queue ends closed; messages still queued stay where they are, abandoned |
| Dispatch.PerKeyFifo | dispatch/server.go:111-120 | if a queue holds what was accepted for it minus what its worker took, then for each key of that queue the messages taken are an in-order prefix of those accepted, and the rest wait in the queue in order |
| Dispatch.Dispatcher.PerKeyOrder | dispatch/server.go:111-120 | in every reachable state, each key's handled messages are a prefix of its put messages in `Put` order, and the remainder are queued in that order |
| WsPump.Pump | gate/websocket/conn.go:148-169 | the write loop on a queue: it waits only on an open, fully drained queue; on a closed queue it either drains it and then attempts a Close frame, or stops on cancellation; a failed write stops it after `accepted + 1` dequeues |
| WsPump.PumpOnClosedTransport | gate/websocket/conn.go:80-81 | on a connection closed before the loop runs, no binary frame is written; the loop dequeues at most one buffer and attempts a Close frame only on an empty queue |
| WsPump.PumpDrainsOpenQueue | gate/websocket/conn.go:153-167 | on an open connection whose transport accepts every write, the loop sends the whole queue as binary frames, in order, and then waits |
| WsPump.PumpSendsInOrder | gate/websocket/conn.go:153-167 | the frames sent are the dequeued buffers as binary frames in FIFO order, followed by one Close frame exactly when the loop ended on a closed, drained queue |
| WebsocketGate.AdmitsOneOverCeiling | gate/websocket/server.go:121-123 | for the handler's ceiling test `Admits` (`Count() > MaxConns` refuses): with exactly `maxConns` registered it still admits one more, and with `maxConns + 1` it refuses |
| WebsocketGate.WMessage.ToDispatch | gate/websocket/conn.go:29-31 | the dispatcher message's routing key is `WMessage.Key`, the connection's ID; name and payload are carried unchanged |
| WebsocketGate.OneConnectionOnePartition | gate/websocket/conn.go:29-31 | all messages from one connection go to the same dispatcher queue |
| WebsocketGate.ConnMgr.constructor | gate/websocket/server.go:19-23 | a new registry is empty |
| WebsocketGate.ConnMgr.Count | gate/websocket/server.go:25-29 | the count is the number of registered IDs |
| WebsocketGate.ConnMgr.Add | gate/websocket/server.go:31-35 | the connection is stored under its own ID, replacing any entry with that ID; other IDs are unchanged; the count grows by one exactly for a new ID |
| WebsocketGate.ConnMgr.Remove | gate/websocket/server.go:37-41 | only that ID is deleted, every other entry stays; removing an absent ID changes nothing |
| WebsocketGate.RemoveLowersCount | gate/websocket/server.go:37-41 | removing a registered ID lowers the count by one; removing an absent ID leaves it as it was |
| WebsocketGate.ConnMgr.Load | gate/websocket/server.go:43-51 | returns the connection stored under the ID, whose own ID is that ID, when present, and the "does not exist" error otherwise |
| WebsocketGate.ConnMgr.CloseEach | gate/websocket/server.go:61-63 | each connection of the snapshot is closed once, in snapshot order, keeping its queued output; the registry only loses entries, never gains or changes one, and each ID it loses belongs to a snapshot connection that was open |
| WebsocketGate.ConnMgr.Close | gate/websocket/server.go:53-64 | every connection in the snapshot has `Close` called on it exactly once, ends closed and keeps its queued output; those that were open have left the registry, those already closed stay in it, and nothing is added |
| WebsocketGate.WsServer.constructor | gate/websocket/server.go:90-113 | the server keeps its options and starts with an empty registry (the defaults `:8000` and 1024 are `WebsocketGate.DefaultOptions`, from lines 82-87) |
| WebsocketGate.WsServer.HandleUpgrade | gate/websocket/server.go:115-126 | a connection is created exactly when the upgrade succeeded and the count was not above `maxConns`; it is fresh, open, empty and registered under its generated ID; otherwise the registry is unchanged; a refused upgraded transport is counted as left open; across sequential calls the registry never grows past `maxConns + 1` |
| WebsocketGate.WsConnection.constructor | gate/websocket/conn.go:51-63 | a new connection is open, has the generated ID and an empty output queue bounded by 128, and is registered in its server's registry under that ID |
| WebsocketGate.WsConnection.Close | gate/websocket/conn.go:73-88 | idempotent: only the first call closes the transport, closes the queue, sets the flag, removes the ID from the registry and cancels; later calls change nothing; the transport is closed once |
| WebsocketGate.WsConnection.Write | gate/websocket/conn.go:105-117 | never blocks: a closed connection gives the "write closed" error and a full queue the "full buffer" error, both leaving the queue unchanged; otherwise the buffer is appended and the call succeeds |
| WebsocketGate.WsConnection.SendQueued | gate/websocket/conn.go:153-168 | the loop body writes exactly what `Pump` prescribes and leaves the undequeued part of the queue in place |
| WebsocketGate.WsConnection.WriteLoop | gate/websocket/conn.go:148-169 | as `SendQueued`, with no write succeeding on a connection already closed (its transport was closed first), so then at most the Close frame is attempted; while waiting nothing is closed and the registry is unchanged; on every other exit the deferred `Close` runs once, leaving the connection closed and, if it was open, its ID removed from the registry |
| BadgerConn.Drain | conn.go:168-177 | the `range` loop over the output queue: it waits only on an open, fully received queue, ends on a closed queue only once it is fully received, and a failed write stops it after `accepted + 1` entries |
| BadgerConn.DrainWritesHead | conn.go:168-177 | one buffer is written per received entry except a final sentinel or failed write, and at most `accepted` in all; the buffers written are the head of the queue, unchanged and in order; a sentinel stop is at a nil entry; a queue without sentinels that the transport fully accepts is received completely |
| BadgerConn.SentinelStopsWriteLoop | conn.go:98-105 | once `Close` has enqueued the sentinel, the write loop writes every buffer ahead of it in order, stops on it, and writes nothing enqueued after it |
| BadgerConn.Connection.constructor | conn.go:38-49 | a new connection is open, has no properties and an empty output queue bounded by 128, and its transport has not been closed |
| BadgerConn.Connection.GetProperty | conn.go:69-76 | returns the stored value exactly when the key is present, and the "no property data found" error otherwise |
| BadgerConn.Connection.Int64 | conn.go:84-96 | the stored value when it is an `int64`; a missing key or a value of another type yields 0 |
| BadgerConn.Connection.SetProperty | conn.go:63-67 | afterwards the key reads back the value (and `Int64` reads it when it is an `int64`); every other key reads as before |
| BadgerConn.Connection.RemoveProperty | conn.go:78-82 | only that key is deleted, and afterwards it reads as missing; removing a missing key changes nothing |
| BadgerConn.Connection.Write | conn.go:107-117 | a nil buffer is the panic and changes nothing; on a closed connection the call does nothing; otherwise the buffer is appended to the queue |
| BadgerConn.Connection.Close | conn.go:98-105 | on an open connection a nil sentinel is appended to the queue; on a closed one nothing changes |
| BadgerConn.Connection.Release | conn.go:119-126 | idempotent: afterwards the connection and its queue are closed, and a call on a closed connection changes nothing |
| BadgerConn.Connection.ReceiveAll | conn.go:168-177 | the loop writes exactly what `Drain` prescribes and leaves the unreceived entries in the queue |
| BadgerConn.Connection.WriteLoop | conn.go:157-178 | as `ReceiveAll`, and on return the deferred code releases the connection and closes the transport once; while waiting nothing is closed |
| BadgerHub.Hub.constructor | hub.go:12-16 | a new hub is empty |
| BadgerHub.Hub.Add | hub.go:18-22 | set insertion: the connection is present afterwards and the size grows by one exactly when it was absent |
| BadgerHub.Hub.Del | hub.go:24-28 | only that connection is removed; removing an absent one changes nothing; the size drops by one exactly when it was present |
| BadgerHub.Hub.Len | hub.go:30-34 | the number of connections held: 0 exactly for the empty hub |
| BadgerHub.Hub.Each | hub.go:36-42 | the callback receives every connection of the hub exactly once and nothing else; the hub is unchanged |
| BadgerConnMgr.ConnMgr.constructor | connmgr.go:12-16 | a new manager is empty |
| BadgerConnMgr.ConnMgr.Count | connmgr.go:18-22 | the number of connections held: 0 exactly for the empty manager |
| BadgerConnMgr.ConnMgr.Add | connmgr.go:24-28 | set insertion; membership of every other connection is unchanged; the count grows by one exactly when the connection was absent |
| BadgerConnMgr.ConnMgr.Remove | connmgr.go:30-34 | only that connection is removed; membership of every other one is unchanged; removing an absent one changes nothing |
| BadgerConnMgr.ConnMgr.Close | connmgr.go:36-42 | `Close` is called on every member exactly once and on nothing else; membership is unchanged |

## Left out

- Transport and upgrade: the websocket upgrader, `ReadMessage`/`WriteMessage` and the transport's `Close` are foreign I/O. The transport is an opaque handle. A write's success is the `accepted` parameter, an upgrade's success is the `upgraded` parameter, and transport closes are counted in a ghost field.
- Read loops (`readLoop` in both connection types): these are transport reads that feed callbacks or the dispatcher. They are not modelled. `WMessage.name` is never set by the source's read loop, so every such message has the empty name; the model keeps the name as a field.
- Goroutines, mutexes, wait groups and context cancellation: each operation is one atomic step.
- Interleavings between `Close` and the write loop are not modelled: `Close` acts either before the loop runs or after it returns.
- `WsConnection.Close` runs its body in a new goroutine. The model runs that body at once.
- The choice Go's `select` makes when both of its cases are ready is an input (`picks`, `pickQueue`).
- The dispatcher's workers: each is a count in `workers`, and `Step` is one iteration of one of them; the goroutines themselves and the logging are not modelled.
- Logging, the logger options, and the `Start`/`Stop` of the websocket server's HTTP listener are left out. They are I/O with no state the model tracks.
- ID generation: a fresh ID is the `uid` parameter of `HandleUpgrade`. Uniqueness of IDs is not modelled.
- `Connection.Start`, `LocalAddr`, `RemoteAddr` and `ConnID` are not modelled. They are accessors and goroutine launches.
- `Conn`: the element type of `ConnMgr` in connmgr.go is not declared in the package, so it is not part of this model. The manager is generic in it, and `Close` returns the order in which members are closed instead of performing the foreign `Close`.
- `hub.each`: the callback is foreign code. The model returns the order in which it is called.
- Dispatch.Dispatcher.Put: the send blocks while the target queue is full. The model requires the queue not to be full. `%` by zero panics, so the model requires at least one queue.
- Dispatch.Dispatcher.Put: its outcomes hold only for calls that do not overlap `Stop`. The dispatcher has no mutex: a `Put` that passed the exit check can send after `Stop` closed the queue, which panics, or block for good once the workers have quit. Neither is modelled.
- Dispatch.Dispatcher.SignalExit: a second `Stop` closes a closed channel and panics. The model requires that the exit signal is still open.
- Dispatch.Dispatcher.CloseQueues: the wait for the workers is its precondition that every worker has quit, as blocking is elsewhere.
- WebsocketGate.WsServer.HandleUpgrade: the `maxConns + 1` bound holds only for handlers that run one after another. `Count` and the `Add` inside `NewConnection` take the registry's lock separately, so concurrent handlers can all pass the test and the registry can grow past `maxConns + 1`. This race is not modelled.
- WsPump.Pump: the loop ignores the result of writing the Close frame, so the model lists the Close frame whether or not the transport took it.
- Dispatch.Dispatcher.constructor: `make` panics on a negative size. The model requires a nonnegative number of queues and, when there is at least one queue, a nonnegative capacity.
- BadgerConn.Connection.Write: the send blocks while the queue is full. The model requires room in the queue when the buffer is non-nil and the connection is open.
- BadgerConn.Connection.Close: the send of the sentinel blocks while the queue is full. Since `Close` holds the mutex, the write loop's `release` then waits too. The model requires room in the queue.
- DispatchRouter.Router.Register: registering a nil handler is not modelled. A handler is a value, and `Fetch` of its name then returns it.
