/**
 * What the write loop of a websocket connection (gate/websocket/conn.go,
 * `writeLoop`) sends, as a function of the queued buffers. The loop waits on
 * two channels at once: the context's done signal and the output queue. When
 * both are ready Go picks one at random; `picks` stands for those choices,
 * one per iteration (true: the done signal wins). `accepted` is how many
 * binary writes the transport takes before one fails.
 */
module WsPump {
  import opened Common

  /**
   * A frame written to the transport. A binary frame is listed only when its
   * write succeeded; the loop ignores the result of writing the Close frame.
   */
  datatype Frame = BinaryFrame(data: Bytes) | CloseFrame

  /** Why the loop stopped. `Blocked` means it waits for the next buffer. */
  datatype PumpExit = Blocked | Cancelled | QueueClosed | WriteFailed

  /** The frames written, how many buffers were dequeued, and the exit. */
  datatype PumpResult = PumpResult(frames: seq<Frame>, consumed: nat, exit: PumpExit)

  function PickDone(picks: seq<bool>): bool
  {
    picks != [] && picks[0]
  }

  function RestPicks(picks: seq<bool>): seq<bool>
  {
    if picks == [] then [] else picks[1..]
  }

  /** Each buffer as a binary frame, in order. */
  function Binaries(q: seq<Bytes>): (r: seq<Frame>)
    ensures |r| == |q|
  {
    if q == [] then [] else [BinaryFrame(q[0])] + Binaries(q[1..])
  }

  lemma BinariesCons(q: seq<Bytes>, k: nat)
    requires k < |q|
    ensures Binaries(q[..k + 1]) == [BinaryFrame(q[0])] + Binaries(q[1..][..k])
  {
    assert q[..k + 1][1..] == q[1..][..k];
  }

  /** How many dequeued buffers reached the transport: all but a failed last one. */
  function Sent(r: PumpResult): nat
  {
    if r.exit == WriteFailed && r.consumed > 0 then r.consumed - 1 else r.consumed
  }

  /**
   * The write loop run on queue `q`; `closed` says whether the connection
   * has been closed, which both cancels the context and closes the queue.
   * The buffers sent are the head of the queue in queue order; a Close frame
   * is sent only after a closed queue has been drained; an open connection
   * whose transport keeps accepting sends everything and then waits.
   */
  function Pump(q: seq<Bytes>, closed: bool, picks: seq<bool>, accepted: nat): (r: PumpResult)
    decreases |q|
    ensures r.consumed <= |q|
    ensures r.exit == Blocked ==> !closed && r.consumed == |q|
    ensures r.exit == QueueClosed ==> closed && r.consumed == |q|
    ensures r.exit == Cancelled ==> closed
    ensures r.exit == WriteFailed ==> r.consumed == accepted + 1
  {
    if closed && PickDone(picks) then
      PumpResult([], 0, Cancelled)
    else if q == [] then
      if closed then PumpResult([CloseFrame], 0, QueueClosed) else PumpResult([], 0, Blocked)
    else if accepted == 0 then
      PumpResult([], 1, WriteFailed)
    else
      var r := Pump(q[1..], closed, RestPicks(picks), accepted - 1);
      PumpResult([BinaryFrame(q[0])] + r.frames, r.consumed + 1, r.exit)
  }

  /**
   * The frames the loop writes are the buffers at the head of the queue, in
   * queue order, followed by a Close frame exactly when it stopped on a
   * drained, closed queue.
   */
  lemma {:induction false} PumpSendsInOrder(q: seq<Bytes>, closed: bool, picks: seq<bool>, accepted: nat)
    ensures var r := Pump(q, closed, picks, accepted);
      r.frames == Binaries(q[..Sent(r)]) + (if r.exit == QueueClosed then [CloseFrame] else [])
    decreases |q|
  {
    var r := Pump(q, closed, picks, accepted);
    if (closed && PickDone(picks)) || q == [] || accepted == 0 {
      assert Sent(r) == 0 && q[..0] == [];
    } else {
      var r' := Pump(q[1..], closed, RestPicks(picks), accepted - 1);
      var tail := if r.exit == QueueClosed then [CloseFrame] else [];
      PumpSendsInOrder(q[1..], closed, RestPicks(picks), accepted - 1);
      assert Sent(r) == Sent(r') + 1;
      PrependBinary(q, Sent(r'), r'.frames, tail);
    }
  }

  /**
   * On a connection closed before the loop runs, the transport is already
   * shut, so the loop's first binary write fails: at most the Close frame,
   * whose write result the loop ignores, is attempted.
   */
  lemma PumpOnClosedTransport(q: seq<Bytes>, picks: seq<bool>)
    ensures var r := Pump(q, true, picks, 0);
      && r.frames == (if !PickDone(picks) && q == [] then [CloseFrame] else [])
      && r.consumed == (if !PickDone(picks) && q != [] then 1 else 0)
  {
  }

  /**
   * On an open connection whose transport accepts every write, the loop
   * sends the whole queue and then waits for more.
   */
  lemma {:induction false} PumpDrainsOpenQueue(q: seq<Bytes>, picks: seq<bool>, accepted: nat)
    requires accepted >= |q|
    ensures Pump(q, false, picks, accepted) == PumpResult(Binaries(q), |q|, Blocked)
    decreases |q|
  {
    if q != [] {
      PumpDrainsOpenQueue(q[1..], RestPicks(picks), accepted - 1);
    }
  }

  /** Sending one more buffer ahead of the frames sent from the queue's tail. */
  lemma PrependBinary(q: seq<Bytes>, k: nat, rest: seq<Frame>, tail: seq<Frame>)
    requires k < |q|
    requires rest == Binaries(q[1..][..k]) + tail
    ensures [BinaryFrame(q[0])] + rest == Binaries(q[..k + 1]) + tail
  {
    BinariesCons(q, k);
    var b := Binaries(q[1..][..k]);
    assert [BinaryFrame(q[0])] + (b + tail) == ([BinaryFrame(q[0])] + b) + tail;
  }

  /** One successful write: the rest of the loop runs on the queue's tail. */
  lemma PumpDequeue(q: seq<Bytes>, closed: bool, picks: seq<bool>, accepted: nat)
    requires q != [] && !(closed && PickDone(picks)) && accepted > 0
    ensures Pump(q, closed, picks, accepted)
         == After([BinaryFrame(q[0])], 1, Pump(q[1..], closed, RestPicks(picks), accepted - 1))
  {
  }

  /** `r` after `frames` were written and `consumed` buffers dequeued. */
  function After(frames: seq<Frame>, consumed: nat, r: PumpResult): PumpResult
  {
    PumpResult(frames + r.frames, consumed + r.consumed, r.exit)
  }

  lemma AfterAfter(f1: seq<Frame>, c1: nat, f2: seq<Frame>, c2: nat, r: PumpResult)
    ensures After(f1, c1, After(f2, c2, r)) == After(f1 + f2, c1 + c2, r)
  {
    assert f1 + (f2 + r.frames) == (f1 + f2) + r.frames;
  }

  /** One buffer dequeued and written: the rest of the loop runs on the queue's tail. */
  lemma PumpOne(spec: PumpResult, frames: seq<Frame>, consumed: nat, q: seq<Bytes>, closed: bool, picks: seq<bool>, accepted: nat)
    requires q != [] && !(closed && PickDone(picks)) && accepted > 0
    requires spec == After(frames, consumed, Pump(q, closed, picks, accepted))
    ensures spec == After(frames + [BinaryFrame(q[0])], consumed + 1, Pump(q[1..], closed, RestPicks(picks), accepted - 1))
  {
    PumpDequeue(q, closed, picks, accepted);
    AfterAfter(frames, consumed, [BinaryFrame(q[0])], 1, Pump(q[1..], closed, RestPicks(picks), accepted - 1));
  }

  /** The loop's last iteration: cancellation, an empty queue, or a failed write. */
  lemma PumpLast(spec: PumpResult, frames: seq<Frame>, consumed: nat, q: seq<Bytes>, closed: bool, picks: seq<bool>, accepted: nat)
    requires (closed && PickDone(picks)) || q == [] || accepted == 0
    requires spec == After(frames, consumed, Pump(q, closed, picks, accepted))
    ensures closed && PickDone(picks) ==> spec == PumpResult(frames, consumed, Cancelled)
    ensures !(closed && PickDone(picks)) && q == [] ==>
      spec == if closed then PumpResult(frames + [CloseFrame], consumed, QueueClosed) else PumpResult(frames, consumed, Blocked)
    ensures !(closed && PickDone(picks)) && q != [] ==> spec == PumpResult(frames, consumed + 1, WriteFailed)
  {
    assert frames + [] == frames;
  }
}
