/** `rpcStream` as the object it is (xrpc/stream.go:43-204). Every method is one critical
    section of queueMu, or a sequence of them run by one goroutine, and is specified by the
    value functions of module Streams, which the connection machine steps by. */
module RpcStreams {
  import opened Packets
  import opened Streams
  import opened Protocol
  import opened StreamInvariants

  /** Why a send or a receive failed: StreamClosedError, or the peer's text. */
  datatype CloseError = StreamClosed | RemoteFailed(id: nat, text: string)

  datatype SendResult = Accepted(msg: StreamMsg) | Refused(error: CloseError)

  datatype RecvResult = Received(any: Any) | Failed(error: CloseError) | StillWaiting

  /** What other goroutines do while this one does not hold queueMu: the reader dispatches a
      message, another receiver takes the first one, or cleanupStreams closes the stream. */
  datatype Meanwhile = Arrives(msg: StreamMsg) | Taken | CleanedUp

  /** The messages that arrived during some waits. */
  function Arrivals(waits: seq<seq<Meanwhile>>): seq<StreamMsg> {
    if waits == [] then [] else Arrivals(waits[..|waits|-1]) + ArrivalsIn(waits[|waits|-1])
  }

  function ArrivalsIn(ms: seq<Meanwhile>): seq<StreamMsg> {
    if ms == [] then []
    else ArrivalsIn(ms[..|ms|-1]) + ArrivalOf(ms[|ms|-1])
  }

  function ArrivalOf(m: Meanwhile): seq<StreamMsg> {
    if m.Arrives? then [m.msg] else []
  }

  /** The text with which an event closes the stream. */
  function CloseOf(m: Meanwhile): Option<string> {
    match m
    case CleanedUp => Some("")
    case Arrives(msg) => if msg.payload.Close? then Some(msg.payload.error) else None
    case Taken => None
  }

  /** The text of the first close among these events. */
  function ClosedIn(ms: seq<Meanwhile>): Option<string> {
    if ms == [] then None
    else
      var before := ClosedIn(ms[..|ms|-1]);
      if before.Some? then before else CloseOf(ms[|ms|-1])
  }

  lemma OneMoreEvent(ms: seq<Meanwhile>, i: nat)
    requires i < |ms|
    ensures ArrivalsIn(ms[..i+1]) == ArrivalsIn(ms[..i]) + ArrivalOf(ms[i])
    ensures ClosedIn(ms[..i+1]) == if ClosedIn(ms[..i]).Some? then ClosedIn(ms[..i]) else CloseOf(ms[i])
  {
    assert ms[..i+1][..i] == ms[..i];
  }

  class RpcStream {
    const id: nat
    const side: Side
    var sendSeq: nat
    var queue: seq<StreamMsg>
    var queueByteLen: int
    var active: bool
    var remoteError: string

    /** All messages handed to the connection, dispatched to this stream, and all results of
        RecvMsg by any goroutine. */
    ghost var sent: seq<StreamMsg>
    ghost var received: seq<StreamMsg>
    ghost var outcomes: seq<RecvOutcome>

    function View(): Stream
      reads this
    {
      Stream(id, side, sendSeq, queue, queueByteLen, active, remoteError)
    }

    /** The connection machine's stream object `o` shows this one. */
    ghost predicate Shows(o: Obj)
      reads this
    {
      o.st == View() && o.sent == sent && o.received == received && o.outcomes == outcomes
    }

    /** The queue holds what was received and not returned; messages are numbered as sent. */
    ghost predicate Valid()
      reads this
    {
      && (forall m | m in queue :: m.payload.Data?)
      && queueByteLen == ByteSum(queue)
      && DataOf(received) == GotsOf(outcomes) + DataOf(queue)
      && sendSeq == |sent| % ID_SPACE
      && (forall i | 0 <= i < |sent| :: sent[i].seqId == (i + 1) % ID_SPACE)
    }

    constructor (id: nat, side: Side)
      ensures Valid() && View() == NewStream(id, side)
      ensures sent == [] && received == [] && outcomes == []
    {
      this.id, this.side := id, side;
      sendSeq, queue, queueByteLen, active, remoteError := 0, [], 0, true, "";
      sent, received, outcomes := [], [], [];
    }

    /** onSocketRead */
    method OnSocketRead(msg: StreamMsg)
      requires Valid() && msg.payload.Data?
      modifies this`queue, this`queueByteLen, this`received
      ensures Valid() && View() == Push(old(View()), msg) && received == old(received) + [msg]
    {
      hide DataOf, GotsOf, ByteSum;
      PushAccounts(received, outcomes, queue, msg);
      queue := queue + [msg];
      queueByteLen := queueByteLen + |msg.payload.any.value|;
      received := received + [msg];
    }

    function GetCloseError(): (e: CloseError)
      reads this
      ensures e.StreamClosed? <==> remoteError == ""
      ensures e.RemoteFailed? ==> e.id == id && e.text == remoteError
    {
      if remoteError == "" then StreamClosed else RemoteFailed(id, remoteError)
    }

    /** closeWithRemoteError */
    method CloseWithRemoteError(error: string)
      requires Valid()
      modifies this`active, this`remoteError
      ensures Valid() && View() == CloseWith(old(View()), error)
    {
      if active {
        active := false;
        remoteError := error;
      }
    }

    /** The dispatch of one incoming message, for processStreamMsg. */
    method Dispatch(msg: StreamMsg)
      requires Valid()
      modifies this`queue, this`queueByteLen, this`received, this`active, this`remoteError
      ensures Valid() && View() == Deliver(old(View()), msg) && received == old(received) + [msg]
    {
      match msg.payload
      case Data(_) => OnSocketRead(msg);
      case Close(_, error) =>
        CloseWithRemoteError(error);
        DataOfAppend(received, msg);
        received := received + [msg];
    }

    /** SendMsg up to the hand-off: the message given to writeWsMessage, which carries what was passed in,
        or the close error. It does what the machine's step does. */
    method SendMsg(any: Any) returns (r: SendResult)
      requires Valid()
      modifies this`sendSeq, this`sent
      ensures Valid()
      ensures old(active) ==>
                r == Accepted(NextMsg(old(View()), Data(any))) && View() == TakeSeq(old(View()))
                && sent == old(sent) + [r.msg]
      ensures old(active) ==>
                r.msg == StreamMsg(id, side, (|old(sent)| + 1) % 0x1_0000_0000_0000_0000, Data(any))
      ensures forall v, t, c, k | StreamGuard(v, t, c, Send(k, any)) && old(Shows(t.objs[k])) ::
                Shows(StreamEffect(v, t, c, Send(k, any)).objs[k])
      ensures forall v, t: Table, c, k | k in t.objs && old(Shows(t.objs[k])) && t.objs[k].owner.Serving?
              && Idle(t.objs[k]) ::
                StreamGuard(v, t, c, Send(k, any)) <==> r.Accepted?
      ensures !old(active) ==> r == Refused(GetCloseError()) && View() == old(View()) && sent == old(sent)
    {
      hide DataOf, GotsOf, ByteSum;
      if !active { return Refused(GetCloseError()); }
      NextSeq(|sent|);
      sendSeq := (sendSeq + 1) % ID_SPACE;
      r := Accepted(StreamMsg(id, side, sendSeq, Data(any)));
      sent := sent + [r.msg];
    }

    /** sendClose */
    method SendClose(errorNum: int, text: string) returns (msg: StreamMsg)
      requires Valid()
      modifies this`sendSeq, this`sent
      ensures Valid() && View() == TakeSeq(old(View())) && sent == old(sent) + [msg]
      ensures msg == NextMsg(old(View()), Close(errorNum, text))
    {
      hide DataOf, GotsOf, ByteSum;
      NextSeq(|sent|);
      sendSeq := (sendSeq + 1) % ID_SPACE;
      msg := StreamMsg(id, side, sendSeq, Close(errorNum, text));
      sent := sent + [msg];
    }

    /** CloseWithError, and Close when there is no error. The stream is found open or closed
        without queueMu, so `meanwhile` can happen before it is closed. Found open, it sends one
        close to the peer, even when a close came in between; that one's text then stays. Found
        closed, it does nothing. */
    method CloseWithError(error: Option<string>, meanwhile: seq<Meanwhile>) returns (msg: Option<StreamMsg>)
      requires Valid()
      modifies this`sendSeq, this`sent, this`active, this`remoteError, this`queue, this`queueByteLen, this`received,
               this`outcomes
      ensures Valid() && !active && old(outcomes) <= outcomes
      ensures old(active) ==>
                && msg == Some(NextMsg(old(View()), if error.Some? then Close(2, error.value) else Close(0, "")))
                && sent == old(sent) + [msg.value] && received == old(received) + ArrivalsIn(meanwhile)
                && remoteError == (if ClosedIn(meanwhile).Some? then ClosedIn(meanwhile).value else "")
      ensures !old(active) ==>
                msg == None && View() == old(View()) && sent == old(sent) && received == old(received)
                && outcomes == old(outcomes)
    {
      hide DataOf, GotsOf, ByteSum, ArrivalsIn, ClosedIn;
      msg := None;
      if !active { return; }
      Wait(meanwhile);
      CloseWithRemoteError("");
      var m;
      if error.None? { m := SendClose(0, ""); } else { m := SendClose(2, error.value); }
      msg := Some(m);
    }

    method GetIncomingQueueLen() returns (n: int)
      requires Valid()
      ensures n == ByteSum(queue) && n >= 0
    {
      n := queueByteLen;
    }

    /** Pops the first message; queueMu is held and the queue is not empty. */
    method TakeFirst() returns (any: Any)
      requires Valid() && queue != []
      modifies this`queue, this`queueByteLen, this`outcomes
      ensures Valid() && View() == PopFront(old(View()))
      ensures any == old(queue)[0].payload.any && outcomes == old(outcomes) + [Got(any)]
      ensures forall v, t, c, k | StreamGuard(v, t, c, Recv(k)) && old(Shows(t.objs[k])) ::
                Shows(StreamEffect(v, t, c, Recv(k)).objs[k])
    {
      hide DataOf, GotsOf, ByteSum;
      DataOfPop(queue);
      ByteSumPop(queue);
      any := queue[0].payload.any;
      GotsOfAppend(outcomes, Got(any));
      queueByteLen := queueByteLen - |any.value|;
      queue := queue[1..];
      outcomes := outcomes + [Got(any)];
    }

    /** One thing another goroutine does. */
    method Happens(m: Meanwhile)
      requires Valid()
      modifies this`queue, this`queueByteLen, this`received, this`active, this`remoteError, this`outcomes
      ensures Valid() && received == old(received) + ArrivalOf(m) && old(outcomes) <= outcomes
      ensures active <==> old(active) && CloseOf(m).None?
      ensures remoteError == if old(active) && CloseOf(m).Some? then CloseOf(m).value else old(remoteError)
    {
      match m
      case Arrives(msg) => Dispatch(msg);
      case Taken => if queue != [] { var _ := TakeFirst(); }
      case CleanedUp => CloseWithRemoteError("");
    }

    /** What happens while this goroutine does not hold queueMu, as during one Wait. */
    method Wait(ms: seq<Meanwhile>)
      requires Valid()
      modifies this`queue, this`queueByteLen, this`received, this`active, this`remoteError, this`outcomes
      ensures Valid() && received == old(received) + ArrivalsIn(ms) && old(outcomes) <= outcomes
      ensures active <==> old(active) && ClosedIn(ms).None?
      ensures remoteError == if old(active) && ClosedIn(ms).Some? then ClosedIn(ms).value else old(remoteError)
    {
      hide Valid, ArrivalOf, CloseOf;
      var i := 0;
      while i < |ms|
        invariant 0 <= i <= |ms| && Valid() && old(outcomes) <= outcomes
        invariant received == old(received) + ArrivalsIn(ms[..i])
        invariant active <==> old(active) && ClosedIn(ms[..i]).None?
        invariant remoteError == if old(active) && ClosedIn(ms[..i]).Some? then ClosedIn(ms[..i]).value
                  else old(remoteError)
      {
        OneMoreEvent(ms, i);
        Happens(ms[i]);
        i := i + 1;
      }
      assert ms[..i] == ms;
    }

    /** The machine's receiving step can run exactly when RecvMsg returns without waiting. */
    lemma ReceivesAtOnce(v: Invokes, t: Table, ctxDone: bool, k: Key)
      requires Valid() && k in t.objs && Shows(t.objs[k]) && !t.objs[k].owner.NotStarted?
      ensures StreamGuard(v, t, ctxDone, Recv(k)) <==> queue != [] || !active
    {
    }

    lemma AllReturned()
      requires Valid() && queue == []
      ensures DataOf(received) == GotsOf(outcomes)
    {
    }

    /** RecvMsg on a closed stream with nothing queued. */
    method ReportClose() returns (error: CloseError)
      requires Valid() && queue == [] && !active
      modifies this`outcomes
      ensures Valid() && error == GetCloseError() && outcomes == old(outcomes) + [Closed(remoteError)]
      ensures forall v, t, c, k | StreamGuard(v, t, c, Recv(k)) && old(Shows(t.objs[k])) ::
                Shows(StreamEffect(v, t, c, Recv(k)).objs[k])
    {
      GotsOfAppend(outcomes, Closed(remoteError));
      outcomes := outcomes + [Closed(remoteError)];
      error := GetCloseError();
    }

    /** RecvMsg. `waits` lists what happens during each Wait; when it is used up the goroutine
        is still parked. The loop tests again after every wake-up, because another receiver may
        have taken the message: a message is returned only from the head of the queue, the close
        error only when the stream is closed and everything received has been returned, and a
        goroutine stays parked only when there is nothing to return. */
    method RecvMsg(waits: seq<seq<Meanwhile>>) returns (r: RecvResult, used: nat)
      requires Valid()
      modifies this`queue, this`queueByteLen, this`received, this`active, this`remoteError, this`outcomes
      ensures Valid() && used <= |waits| && old(outcomes) <= outcomes
      ensures received == old(received) + Arrivals(waits[..used])
      ensures r.Received? ==> |outcomes| > 0 && outcomes[|outcomes|-1] == Got(r.any)
      ensures r.Failed? ==>
                !active && queue == [] && DataOf(received) == GotsOf(outcomes) && r.error == GetCloseError() &&
                |outcomes| > 0 && outcomes[|outcomes|-1] == Closed(remoteError)
      ensures r.StillWaiting? ==> used == |waits| && active && queue == [] && DataOf(received) == GotsOf(outcomes)
      ensures old(queue) != [] ==> used == 0 && r == Received(old(queue)[0].payload.any)
      ensures used == 0 && !r.StillWaiting? <==> old(queue) != [] || !old(active)
    {
      hide Valid, DataOf, GotsOf, ArrivalsIn;
      used := 0;
      while queue == []
        invariant used <= |waits| && Valid() && old(outcomes) <= outcomes
        invariant received == old(received) + Arrivals(waits[..used])
        invariant old(queue) != [] ==> used == 0 && queue == old(queue)
        invariant if used == 0 then queue == old(queue) && active == old(active) else old(active)
        decreases |waits| - used
      {
        if !active {
          var error := ReportClose();
          AllReturned();
          return RecvResult.Failed(error), used;
        }
        if used == |waits| {
          AllReturned();
          return StillWaiting, used;
        }
        assert waits[..used+1][..used] == waits[..used];
        Wait(waits[used]);
        used := used + 1;
      }
      var any := TakeFirst();
      r := Received(any);
    }
  }
}
