# tcp-socket: a verified model of the framed session server

This project models the sequential core of the `tcpSocket` Go package: a TCP
server that frames messages with a 4-byte header, keeps one connection per
session with a send queue, a queue of decoded messages and a heartbeat
timer, and lets the application unicast or broadcast to its sessions.

Five modules, one per component:

- `Protocol` (protocol.dfy): bytes, the error values the core produces,
  messages, packets and the message codec. `Encode`, `Decode` and the
  heartbeat message id are defined outside conn.go and service.go, so a
  `Codec` record of uninterpreted functions carries them; every property holds whatever they do.
- `Header` (header.dfy): the frame-header decision of the read loop. It
  models Go's `strconv.Atoi` exactly on short strings: an optional sign,
  then at least one digit and nothing else, and 0 on a syntax error. It also
  models the little-endian `int32` read and the 1000000-byte bound. The
  main theorem, `HeaderAlwaysRejected`, shows that every header is
  rejected. A header that Atoi accepts with a non-zero value ends in an ASCII
  digit, so its little-endian value is at least 0x30000000, which is above
  the bound. So the read loop never reads a payload and never calls `Decode`.
- `Connection` (conn.dfy): class `Conn` with the send queue, the forwarded
  message queue, the log of errors pushed on `done`, the timer-armed flag,
  the closed flag and the log of socket writes. Each iteration of the read
  and write goroutines is one method. What the socket, the clock or a
  `select` would decide is a parameter.
- `Callbacks` (dispatch.dfy): the connection handler's callback dispatch as a
  function over the sequence of events its `select` receives. It is proved
  equal to an independent description: the messages before the first error,
  then one disconnect for that error.
- `Service` (service.dfy): class `SocketService` with its status, heartbeat
  settings, registered callbacks and the session registry, a map from
  session ID to session. The connection handler is split into its entry
  (`OpenSession`), its select loop (`HandleEvents`) and its deferred exit
  (`CloseSession`), so a caller can interleave other operations between them.
  `GetStatus` is a plain read of `status`.

Two consequences of the code, each stated by a member of the model:

- The read loop checks the 4-byte header as decimal text with `strconv.Atoi`
  (conn.go:124-129). It then reads the same bytes as a little-endian `int32`
  size (conn.go:131-133) and rejects sizes above 1000000 (conn.go:141-145).
  No header passes both checks (`HeaderAlwaysRejected`), so no frame is ever
  accepted.
- Only a successfully decoded frame resets the heartbeat timer
  (conn.go:163-165), and no frame ever decodes. By the contracts of
  `ReadStep` and `WriteStep`, a fired timer is never re-armed, so a
  connection enqueues at most one heartbeat (`HeartbeatAtMostOnce`).

## Model

| member | source | states |
|---|---|---|
| `Header.Digits` | conn.go:124 | the digit run parses exactly when every byte is in '0'..'9', and its value is 0 exactly when every byte is '0' |
| `Header.Atoi` | conn.go:124 | Atoi succeeds exactly on an optional sign followed by one or more digits; a failure yields 0; a success yields 0 exactly when all digits are '0' |
| `Header.LittleEndianInt32` | conn.go:131-133 | the value is a signed 32-bit integer congruent to the little-endian unsigned reading of the 4 bytes, and is negative exactly when the top byte is 0x80 or more |
| `Header.DecideHeader` | conn.go:124-145 | "data header error" exactly when the Atoi value is 0; any other rejection is "out of memory"; a payload is read only for a non-zero Atoi value and a little-endian size of at most 1000000 |
| `Header.DataHeaderErrorExactly` | conn.go:124-129 | a header is rejected with "data header error" exactly when it is not a well-formed decimal or all its digits are '0' |
| `Header.AtoiAcceptedEndsInDigit` | conn.go:124-125 | a header with a non-zero Atoi value ends in an ASCII digit |
| `Header.DigitHeaderIsLarge` | conn.go:131-141 | a header ending in an ASCII digit declares a size of at least 0x30000000, above the 1000000 limit |
| `Header.HeaderAlwaysRejected` | conn.go:124-145 | every 4-byte header is rejected: "data header error" when the Atoi value is 0, otherwise "out of memory"; no payload size gets through |
| `Header.HeaderExamples` | conn.go:124-145 | "0000", "+000", "abcd" and "12\r\n" are data header errors; "1234" is out of memory |
| `Connection.Conn.constructor` | conn.go:33-51 | a new connection has empty queues and logs, is open, and has its timer armed exactly when the heartbeat interval is not 0 |
| `Connection.Conn.Close` | conn.go:54-57 | afterwards the timer is stopped and the socket closed, however often it is called |
| `Connection.Conn.SendMessage` | conn.go:60-69 | an encode failure is returned and leaves the send queue unchanged; a success appends exactly the encoded packet at the end |
| `Connection.Conn.WriteStep` | conn.go:80-93 | a dequeue takes the oldest packet; a nil packet is dropped with no write; any other packet is written, or its write error goes on `done`; a timer fire disarms the timer and enqueues one heartbeat with an empty payload through SendMessage; a case that is not ready changes nothing |
| `Connection.Conn.ReadStep` | conn.go:107-145 | every read iteration pushes exactly one error on `done`. That error is the deadline error; on a stream that ends before 4 bytes, the socket's read error, or else EOF or unexpected EOF; or the header's rejection. The iteration forwards no message, does not touch the timer, and takes at most the 4 header bytes from the stream |
| `Connection.Conn.ReceiveFrame` | conn.go:146-171 | once a size is declared: a stream that ends early (the socket's read error, or else EOF or unexpected EOF) or a decode error goes on `done` and nothing else changes. On success the timer is re-armed only if the interval is positive, a heartbeat is dropped, and any other message is appended to the message queue |
| `Connection.HeartbeatAtMostOnce` | conn.go:91-93 | once the heartbeat timer has fired, a read iteration does not re-arm it and a second fire is not ready, so the send queue gains at most one heartbeat: the encoded heartbeat when encoding succeeds |
| `Callbacks.Loop` | service.go:137-151 | the select loop makes at most one call per event, every call carries the session ID, and none is onConnect |
| `Callbacks.Dispatch` | service.go:133-151 | the handler makes at most one call more than there are events, and every call carries the session ID |
| `Callbacks.LoopClosedForm` | service.go:137-151 | the select loop calls onMessage for each message before the first error, in order, then onDisconnect once with that error; a nil callback contributes nothing |
| `Callbacks.LoopIgnoresAfterDone` | service.go:139-144 | no event after the first error changes the calls made |
| `Callbacks.LoopAppend` | service.go:137-151 | dispatching an error-free prefix and then the rest is the same as dispatching everything at once |
| `Callbacks.DispatchClosedForm` | service.go:133-151 | the handler's calls are onConnect if registered, then the messages before the first error, then the disconnect for that error |
| `Callbacks.ConnectFirst` | service.go:133-135 | onConnect is the first call exactly when it is registered, and is never made later |
| `Callbacks.DisconnectOnceAndLast` | service.go:139-144 | onDisconnect is made at most once, as the last call, with the first error. It is made exactly when it is registered and an error arrived |
| `Callbacks.ForwardedInOrder` | service.go:146-149 | with onMessage registered, the calls after onConnect are exactly the messages before the first error, in arrival order |
| `Callbacks.DisconnectEndsDispatch` | service.go:139-144 | with onDisconnect registered and an error received, the last call is onDisconnect with the first error |
| `Service.SocketService.GetStatus` | service.go:155-157 | returns the service's current status |
| `Service.SocketService.constructor` | service.go:52-60 | a new service is Inited, with heartbeat interval and timeout 0, an empty registry and no callbacks |
| `Service.NewSocketService` | service.go:41-63 | a listen failure returns that error and no service; otherwise a fresh Inited service with zero heartbeat settings and no sessions |
| `Service.SocketService.RegMessageHandler` | service.go:66-68 | only the message callback changes |
| `Service.SocketService.RegConnectHandler` | service.go:71-73 | only the connect callback changes |
| `Service.SocketService.RegDisconnectHandler` | service.go:76-78 | only the disconnect callback changes |
| `Service.SocketService.Serv` | service.go:83 | on entry the status becomes Running |
| `Service.SocketService.StopServing` | service.go:86-90 | on return the status becomes Stop and the listener is closed |
| `Service.SocketService.SetHeartBeat` | service.go:165-174 | while Running it returns an error and leaves both settings unchanged. Otherwise, including after Stop, it succeeds and sets both settings exactly to its arguments |
| `Service.SocketService.GetConnsCount` | service.go:177-184 | the count equals the number of registry entries |
| `Service.SocketService.Unicast` | service.go:187-197 | a registered session's queue gains the encoded message when encoding succeeds. Every other queue and the registry are unchanged, so an unknown ID changes nothing |
| `Service.SocketService.Broadcast` | service.go:200-208 | every registered session's queue gains the encoded message when encoding succeeds, and a failure does not stop the loop. Nothing else in any connection changes |
| `Service.SocketService.OpenSession` | service.go:118-120 | a fresh connection with the remote address, the service's heartbeat settings and empty queues and logs is stored under the ID; a new ID adds one entry |
| `Service.SocketService.CloseSession` | service.go:124-128 | the connection is closed with its timer stopped, and the ID is deleted; a registered ID removes one entry |
| `Service.SocketService.HandleEvents` | service.go:137-151 | the loop's calls are exactly the dispatch loop's, stopping at the first error |
| `Service.SocketService.RunCallbacks` | service.go:133-151 | for events that contain an error: the calls are exactly Dispatch over the events, and with onDisconnect registered the last one is onDisconnect with the first error |
| `Service.SocketService.ConnectHandler` | service.go:117-152 | for events that contain an error, the only way the handler returns: the callbacks are exactly Dispatch over the events, ending with onDisconnect for the first error when it is registered. Afterwards the ID is unregistered, so for a new ID the registry, and with it the connection count, is as before |

## Left out

- Sockets and the listener: `net.Listen` is a `listenErr` parameter of
  `NewSocketService`. `Accept`, the accept loop `acceptHandler` and its
  forwarding of an accept error to `stopCh` are not modelled.
- Raw reads: the bytes the peer sends and how the stream then ends (a close,
  or a failed read with its error) are parameters. `ReadFull` blocking until
  more bytes arrive is not modelled.
- Raw writes: a failed write records nothing in `written`, so partial writes
  are not modelled.
- `SetReadDeadline`: its outcome is a parameter. Real time, timer durations
  and deadline expiry are not modelled.
- Concurrency: the goroutines, the nondeterminism of `select` (the chosen
  case is a parameter), channel capacity 100 and blocking sends, the
  unbuffered `done` and `stopCh` channels, context cancellation, `Stop`, and
  `sync.Map` iteration racing with inserts and deletes.
- The error branch of `binary.Read` (conn.go:134-138): a 4-byte reader
  always yields an `int32`, so `LittleEndianInt32` is total.
- The panic `make` would raise on a negative size (conn.go:146) is not
  modelled. `HeaderAlwaysRejected` shows that no size reaches that line.
- Go timer details: `NewTimer(0)` firing before `Stop`, and a fire left
  pending in the channel across `Reset`. The timer is a flag that a fire
  clears.
- Logging (`zxylog`) and `GetBinDir`, which reads `os.Args`.
- The byte formats of `Encode` and `Decode`, and the internals of `Message`
  and `Session`: session ID generation and user IDs. The session ID is a
  parameter of the handler.
- Header.Atoi: requires fewer than 19 bytes (Go's fast path). The slow path
  for longer strings, with its range errors, is not modelled. The read loop
  only ever passes 4 bytes.
- Service.SocketService.ConnectHandler: runs its entry, loop and exit as one
  call, and requires an error among the events, because the handler returns
  only after one. A handler still waiting in its `select` (no error yet, the
  session still registered) and interleavings with other operations are
  expressed through `OpenSession` and `HandleEvents`, with `CloseSession`
  once it returns.
