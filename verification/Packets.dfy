/** The typed packets two connected endpoints exchange (xrpc/internal/xrpcpb/xrpc.proto).
    The wire encoding is not part of this model: a packet is a value, and a direction of
    the connection is a reliable FIFO of packets. */
module Packets {

  type byte = bv8

  /** Ids and sequence numbers are 64-bit and wrap. */
  const ID_SPACE: nat := 0x1_0000_0000_0000_0000

  datatype Option<+T> = None | Some(value: T)

  /** The two endpoints of a connection. */
  datatype End = A | B

  function PeerOf(x: End): End {
    match x
    case A => B
    case B => A
  }

  /** A protobuf `Any`: the name of a message type and its bytes. */
  datatype Any = Any(typeName: string, value: seq<byte>)

  /** Which half of a stream a sender holds. Both endpoints can hold both halves,
      of different streams with the same number. */
  datatype Side = ClientSide | ServerSide

  function Opposite(s: Side): Side {
    match s
    case ClientSide => ServerSide
    case ServerSide => ClientSide
  }

  datatype Payload = Data(any: Any) | Close(errorNum: int, error: string)

  datatype StreamMsg = StreamMsg(streamId: nat, sender: Side, seqId: nat, payload: Payload)

  /** The `in` field of a request: a user message, or the parameters of a stream to open. */
  datatype Input = Message(any: Any) | OpenStream(streamId: nat, service: string, methodName: string)

  /** The `response` field of a response. */
  datatype Output = Reply(any: Any) | StreamReply(streamId: nat)

  datatype RequestMsg = RequestMsg(id: nat, service: string, methodName: string, input: Input, isNotification: bool)

  datatype Packet =
    | Request(req: RequestMsg)
    | Response(id: nat, out: Option<Output>, error: string)
    | StreamPacket(msg: StreamMsg)
    | CtxCancel(id: nat, cause: string)

  /** The method name that marks a request to open a stream when the service name is empty. */
  const STREAM_REQUEST := "StreamRequest"
}
