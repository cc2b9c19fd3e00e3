/**
 * Values shared by the connection and the service: bytes, errors, messages,
 * wire packets and the message codec.
 *
 * Encode, Decode and MsgHeartbeat are defined outside conn.go and
 * service.go, so they are carried as a record of uninterpreted functions:
 * every property below holds whatever those functions do.
 */
module Protocol {

  type uint8 = x: int | 0 <= x < 0x100

  datatype Option<+T> = None | Some(value: T)

  datatype Result<+T, +E> = Success(value: T) | Failure(error: E)

  /** The errors the core produces or passes on. */
  datatype Error =
    | EOF                      // io.EOF: the stream ended before the first byte of a read
    | UnexpectedEOF            // io.ErrUnexpectedEOF: the stream ended in the middle of a read
    | DataHeaderError          // "data header error"
    | OutOfMemory              // "out of memory"
    | HeartBeatWhileRunning    // "Can't set heart beat on service running"
    | IoError(code: int)       // an error reported by the socket (deadline, read, write, listen)
    | CodecError(code: int)    // an error returned by Encode or Decode

  /** An application message: its id (the heartbeat id is reserved) and payload. */
  datatype Message = Message(id: int, data: seq<uint8>)

  /** What Encode hands to the send queue: a byte slice, which Go allows to be nil. */
  datatype Packet = Nil | Bytes(data: seq<uint8>)

  /** The message codec and the reserved heartbeat id, left uninterpreted. */
  datatype Codec = Codec(
    encode: Message -> Result<Packet, Error>,
    decode: seq<uint8> -> Result<Message, Error>,
    heartbeatId: int)

  /** What a successful or failing SendMessage appends to a send queue. */
  function Enqueued(codec: Codec, msg: Message): (q: seq<Packet>)
    ensures |q| <= 1
    ensures q != [] <==> codec.encode(msg).Success?
    ensures q != [] ==> q[0] == codec.encode(msg).value
  {
    match codec.encode(msg)
    case Success(pkt) => [pkt]
    case Failure(_) => []
  }

  /** How the socket's byte stream ends: the peer closes it, or a read fails with an error. */
  datatype StreamEnd = Closed | Failed(err: Error)

  /**
   * The error io.ReadFull returns when the peer closes the stream after only
   * `available` of the `wanted` bytes: io.EOF when nothing at all was read.
   */
  function ShortReadError(available: nat, wanted: nat): (e: Error)
    requires available < wanted
    ensures e == EOF <==> available == 0
    ensures e == EOF || e == UnexpectedEOF
  {
    if available == 0 then EOF else UnexpectedEOF
  }

  /**
   * The error io.ReadFull returns when the stream holds only `available` of
   * the `wanted` bytes before it ends with `end`: a failed read's own error,
   * whatever was read before it, except that io.EOF is reported as for a
   * close: EOF when nothing was read and unexpected EOF otherwise.
   */
  function ReadFullError(available: nat, wanted: nat, end: StreamEnd): (e: Error)
    requires available < wanted
    ensures end.Failed? && end.err != EOF ==> e == end.err
    ensures end == Closed || end == Failed(EOF) ==>
      (e == EOF <==> available == 0) && (e == EOF || e == UnexpectedEOF)
  {
    match end
    case Failed(err) => if err == EOF then ShortReadError(available, wanted) else err
    case Closed => ShortReadError(available, wanted)
  }
}
