/** One end of a stream (xrpc/stream.go): its state as a value, the effect of each critical
    section on that value. */
module Streams {
  import opened Packets

  /** The fields of `rpcStream` that change or identify it. */
  datatype Stream = Stream(
    id: nat,
    side: Side,
    sendSeq: nat,
    queue: seq<StreamMsg>,
    queueByteLen: int,
    active: bool,
    remoteError: string)

  /** What RecvMsg returns: a message, or the close error, whose text is empty when the peer
      gave none (the code then returns StreamClosedError). */
  datatype RecvOutcome = Got(any: Any) | Closed(error: string)

  function NewStream(id: nat, side: Side): Stream {
    Stream(id, side, 0, [], 0, true, "")
  }

  /** onSocketRead */
  function Push(s: Stream, m: StreamMsg): Stream
    requires m.payload.Data?
  {
    s.(queue := s.queue + [m], queueByteLen := s.queueByteLen + |m.payload.any.value|)
  }

  /** closeWithRemoteError: only the first close counts. */
  function CloseWith(s: Stream, remoteError: string): Stream {
    if s.active then s.(active := false, remoteError := remoteError) else s
  }

  /** The dispatch of one incoming message on a registered stream. */
  function Deliver(s: Stream, m: StreamMsg): Stream {
    match m.payload
    case Data(_) => Push(s, m)
    case Close(_, error) => CloseWith(s, error)
  }

  predicate CanReceive(s: Stream) {
    s.queue != [] || !s.active
  }

  function PopFront(s: Stream): Stream
    requires s.queue != [] && s.queue[0].payload.Data?
  {
    s.(queue := s.queue[1..], queueByteLen := s.queueByteLen - |s.queue[0].payload.any.value|)
  }

  function NextMsg(s: Stream, payload: Payload): StreamMsg {
    StreamMsg(s.id, s.side, (s.sendSeq + 1) % ID_SPACE, payload)
  }

  function TakeSeq(s: Stream): Stream {
    s.(sendSeq := (s.sendSeq + 1) % ID_SPACE)
  }

  /** The bytes a queue of data messages holds. */
  function ByteSum(q: seq<StreamMsg>): (n: nat)
    requires forall m | m in q :: m.payload.Data?
  {
    if q == [] then 0 else ByteSum(q[..|q|-1]) + |q[|q|-1].payload.any.value|
  }

  /** The user messages among `ms`, in order. */
  function DataOf(ms: seq<StreamMsg>): seq<Any> {
    if ms == [] then []
    else
      var last := ms[|ms|-1].payload;
      DataOf(ms[..|ms|-1]) + if last.Data? then [last.any] else []
  }

  /** The error text of the first close among `ms`. */
  function FirstClose(ms: seq<StreamMsg>): Option<string> {
    if ms == [] then None
    else
      var before := FirstClose(ms[..|ms|-1]);
      var last := ms[|ms|-1].payload;
      if before.Some? then before else if last.Close? then Some(last.error) else None
  }

  /** Data first, then only closes: what a peer that sends and then closes produces. */
  ghost predicate ClosesLast(ms: seq<StreamMsg>) {
    forall i, j | 0 <= i < j < |ms| :: ms[i].payload.Close? ==> ms[j].payload.Close?
  }

  /** The receiver saw `datas` in order, then nothing but the close error. */
  ghost predicate Graceful(outcomes: seq<RecvOutcome>, datas: seq<Any>, close: Option<string>) {
    && (forall i | 0 <= i < |outcomes| && i < |datas| :: outcomes[i] == Got(datas[i]))
    && (forall i | |datas| <= i < |outcomes| :: close.Some? && outcomes[i] == Closed(close.value))
  }
}
