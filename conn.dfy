/**
 * One connection (conn.go): its send queue, its queue of decoded messages
 * for the service, the errors it pushes on `done`, its heartbeat timer and
 * the socket. The read and write goroutines are loops; each iteration of
 * either is one method here, and whatever the socket, the clock or the
 * `select` would decide comes in as a parameter.
 */
module Connection {
  import opened Protocol
  import opened Header

  /** Which ready case of the write loop's `select` runs. */
  datatype WriteEvent = Dequeue | TimerFires

  class Conn {
    /** The remote address, returned by GetName. */
    const name: string
    const hbInterval: int
    const hbTimeout: int
    const codec: Codec

    /** Packets waiting in sendCh, oldest first. */
    var sendQueue: seq<Packet>
    /** Decoded messages waiting in messageCh, oldest first. */
    var messages: seq<Message>
    /** Every error pushed on `done`, in order. */
    var done: seq<Error>
    /** Whether the heartbeat timer is running. */
    var timerArmed: bool
    /** Whether the socket has been closed. */
    var closed: bool
    /** The byte slices handed to the socket's Write, in order. */
    var written: seq<seq<uint8>>

    /** NewConn: empty queues, and the timer stopped when the interval is 0. */
    constructor (name: string, hbInterval: int, hbTimeout: int, codec: Codec)
      ensures this.name == name && this.codec == codec
      ensures this.hbInterval == hbInterval && this.hbTimeout == hbTimeout
      ensures sendQueue == [] && messages == [] && done == [] && written == []
      ensures timerArmed <==> hbInterval != 0
      ensures !closed
    {
      this.name := name;
      this.hbInterval := hbInterval;
      this.hbTimeout := hbTimeout;
      this.codec := codec;
      sendQueue, messages, done, written := [], [], [], [];
      timerArmed := true;
      if hbInterval == 0 {
        timerArmed := false;
      }
      closed := false;
    }

    /** Close stops the timer and closes the socket; a second call changes nothing more. */
    method Close()
      modifies this`timerArmed, this`closed
      ensures !timerArmed && closed
    {
      timerArmed := false;
      closed := true;
    }

    /**
     * SendMessage: on an encode failure the error is returned and the queue
     * is left alone; otherwise the encoded packet joins the end of the queue.
     */
    method SendMessage(msg: Message) returns (err: Option<Error>)
      modifies this`sendQueue
      ensures err.Some? <==> codec.encode(msg).Failure?
      ensures err.Some? ==> err.value == codec.encode(msg).error && sendQueue == old(sendQueue)
      ensures err.None? ==> sendQueue == old(sendQueue) + [codec.encode(msg).value]
      ensures sendQueue == old(sendQueue) + Enqueued(codec, msg)
    {
      match codec.encode(msg)
      case Failure(e) =>
        err := Some(e);
      case Success(pkt) =>
        sendQueue := sendQueue + [pkt];
        err := None;
    }

    /**
     * One iteration of writeCoroutine. `ready` is false when the chosen
     * case could not run (empty queue, or a timer that is not armed), and
     * then nothing changes. A dequeued nil packet is skipped; any other is
     * written, and a write error (`writeErr`) goes on `done`. A timer fire
     * sends one heartbeat message with an empty payload through SendMessage.
     */
    method WriteStep(event: WriteEvent, writeErr: Option<Error>) returns (ready: bool)
      modifies this`sendQueue, this`done, this`written, this`timerArmed
      ensures event == Dequeue ==> ready == (old(sendQueue) != [])
      ensures event == TimerFires ==> ready == old(timerArmed)
      ensures !ready ==>
        sendQueue == old(sendQueue) && done == old(done) && written == old(written) && timerArmed == old(timerArmed)
      ensures ready && event == Dequeue ==>
        var pkt := old(sendQueue)[0];
        && sendQueue == old(sendQueue)[1..]
        && timerArmed == old(timerArmed)
        && written == old(written) + (if pkt.Bytes? && writeErr.None? then [pkt.data] else [])
        && done == old(done) + (if pkt.Bytes? && writeErr.Some? then [writeErr.value] else [])
      ensures ready && event == TimerFires ==>
        && !timerArmed
        && sendQueue == old(sendQueue) + Enqueued(codec, Message(codec.heartbeatId, []))
        && written == old(written) && done == old(done)
    {
      match event
      case Dequeue =>
        if sendQueue == [] {
          return false;
        }
        var pkt := sendQueue[0];
        sendQueue := sendQueue[1..];
        ready := true;
        if pkt.Nil? {
          return;
        }
        match writeErr {
          case Some(e) =>
            done := done + [e];
          case None =>
            written := written + [pkt.data];
        }
      case TimerFires =>
        if !timerArmed {
          return false;
        }
        timerArmed := false;
        ready := true;
        var _ := SendMessage(Message(codec.heartbeatId, []));
    }

    /**
     * One iteration of readCoroutine on the bytes `input` that the peer
     * sends before the stream ends with `end`; `rest` is what it leaves
     * unread. `deadlineErr` is the outcome of SetReadDeadline, made only when
     * the heartbeat interval is positive. Every iteration fails: it pushes
     * exactly one error on `done`, forwards no message, leaves the timer
     * alone, and takes at most the four header bytes from the stream.
     */
    method ReadStep(input: seq<uint8>, end: StreamEnd, deadlineErr: Option<Error>) returns (rest: seq<uint8>)
      modifies this`done
      ensures messages == old(messages) && timerArmed == old(timerArmed)
      ensures |done| == |old(done)| + 1 && done[..|old(done)|] == old(done)
      ensures hbInterval > 0 && deadlineErr.Some? ==>
        rest == input && done[|old(done)|] == deadlineErr.value
      ensures !(hbInterval > 0 && deadlineErr.Some?) && |input| < HeaderSize ==>
        rest == [] && done[|old(done)|] == ReadFullError(|input|, HeaderSize, end)
      ensures !(hbInterval > 0 && deadlineErr.Some?) && |input| >= HeaderSize ==>
        && rest == input[HeaderSize..]
        && done[|old(done)|] == (if Atoi(input[..HeaderSize]).value == 0 then DataHeaderError else OutOfMemory)
    {
      if hbInterval > 0 && deadlineErr.Some? {
        done := done + [deadlineErr.value];
        return input;
      }
      if |input| < HeaderSize {
        done := done + [ReadFullError(|input|, HeaderSize, end)];
        return [];
      }
      var header := input[..HeaderSize];
      rest := input[HeaderSize..];
      match DecideHeader(header)
      case Reject(e) =>
        done := done + [e];
        HeaderAlwaysRejected(header);
      case ReadPayload(_) =>
        // The payload read, Decode and the timer reset (ReceiveFrame) are never reached.
        HeaderAlwaysRejected(header);
        assert false;
    }

    /**
     * The rest of a readCoroutine iteration once a header has declared
     * `dataSize` bytes: read exactly that many, decode them, reset the timer
     * when the heartbeat interval is positive, drop a heartbeat and forward
     * any other message. A stream that ends (`end`) before `dataSize` bytes,
     * or a decode error, goes on `done` and nothing else changes.
     */
    method ReceiveFrame(dataSize: nat, input: seq<uint8>, end: StreamEnd) returns (rest: seq<uint8>)
      modifies this`done, this`messages, this`timerArmed
      ensures |input| < dataSize ==>
        rest == [] && done == old(done) + [ReadFullError(|input|, dataSize, end)]
        && messages == old(messages) && timerArmed == old(timerArmed)
      ensures |input| >= dataSize ==> rest == input[dataSize..]
      ensures |input| >= dataSize && codec.decode(input[..dataSize]).Failure? ==>
        done == old(done) + [codec.decode(input[..dataSize]).error]
        && messages == old(messages) && timerArmed == old(timerArmed)
      ensures |input| >= dataSize && codec.decode(input[..dataSize]).Success? ==>
        var msg := codec.decode(input[..dataSize]).value;
        && done == old(done)
        && timerArmed == (old(timerArmed) || hbInterval > 0)
        && messages == old(messages) + (if msg.id == codec.heartbeatId then [] else [msg])
    {
      if |input| < dataSize {
        done := done + [ReadFullError(|input|, dataSize, end)];
        return [];
      }
      var payload := input[..dataSize];
      rest := input[dataSize..];
      match codec.decode(payload)
      case Failure(e) =>
        done := done + [e];
      case Success(msg) =>
        if hbInterval > 0 {
          timerArmed := true;
        }
        if msg.id == codec.heartbeatId {
          return;
        }
        messages := messages + [msg];
    }
  }

  /**
   * A connection sends at most one heartbeat: after the timer fires, a read
   * iteration does not re-arm it (every header is rejected, so the reset
   * after a decoded frame is never reached), and a second fire is not ready.
   */
  method HeartbeatAtMostOnce(c: Conn, input: seq<uint8>, end: StreamEnd, deadlineErr: Option<Error>)
    returns (first: bool, second: bool)
    requires c.timerArmed
    modifies c
    ensures first && !second && !c.timerArmed
    ensures c.sendQueue == old(c.sendQueue) + Enqueued(c.codec, Message(c.codec.heartbeatId, []))
  {
    first := c.WriteStep(TimerFires, None);
    var _ := c.ReadStep(input, end, deadlineErr);
    second := c.WriteStep(TimerFires, None);
  }
}
