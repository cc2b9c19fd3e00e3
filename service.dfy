/**
 * The socket service (service.go): its status, heartbeat configuration,
 * registered callbacks and the registry from session ID to session, with
 * unicast, broadcast, the connection count and the per-connection handler.
 */
module Service {
  import opened Protocol
  import opened Connection
  import opened Callbacks

  /** STInited, STRunning and STStop. */
  datatype Status = Inited | Running | Stop

  /** A session binds its ID to the connection it owns. */
  datatype Session = Session(id: SessionId, conn: Conn)

  class SocketService {
    const laddr: string
    const codec: Codec
    var handlers: Handlers
    var sessions: map<SessionId, Session>
    var hbInterval: int
    var hbTimeout: int
    var status: Status
    var listenerClosed: bool

    /** Each entry is stored under its own ID, and no two entries share a connection. */
    ghost predicate Valid()
      reads this
    {
      && (forall sid :: sid in sessions ==> sessions[sid].id == sid && sessions[sid].conn.codec == codec)
      && (forall a, b :: a in sessions && b in sessions && a != b ==> sessions[a].conn != sessions[b].conn)
    }

    /** The connections of the registered sessions. */
    function Conns(): (conns: set<Conn>)
      reads this
    {
      set sid | sid in sessions :: sessions[sid].conn
    }

    /** The struct NewSocketService builds once its listener is open. */
    constructor (laddr: string, codec: Codec)
      ensures Valid()
      ensures this.laddr == laddr && this.codec == codec
      ensures status == Inited && hbInterval == 0 && hbTimeout == 0 && sessions == map[]
      ensures handlers == Handlers(false, false, false) && !listenerClosed
    {
      this.laddr := laddr;
      this.codec := codec;
      handlers := Handlers(false, false, false);
      sessions := map[];
      hbInterval, hbTimeout := 0, 0;
      status := Inited;
      listenerClosed := false;
    }

    /** GetStatus: the current status. */
    function GetStatus(): (st: Status)
      reads this
      ensures st == status
    {
      status
    }

    method RegMessageHandler(present: bool)
      modifies this`handlers
      ensures handlers == old(handlers).(onMessage := present)
    {
      handlers := handlers.(onMessage := present);
    }

    method RegConnectHandler(present: bool)
      modifies this`handlers
      ensures handlers == old(handlers).(onConnect := present)
    {
      handlers := handlers.(onConnect := present);
    }

    method RegDisconnectHandler(present: bool)
      modifies this`handlers
      ensures handlers == old(handlers).(onDisconnect := present)
    {
      handlers := handlers.(onDisconnect := present);
    }

    /** Serv on entry: the service is running. */
    method Serv()
      modifies this`status
      ensures status == Running
    {
      status := Running;
    }

    /** Serv on return, after a stop request: stopped, with its listener closed. */
    method StopServing()
      modifies this`status, this`listenerClosed
      ensures status == Stop && listenerClosed
    {
      status := Stop;
      listenerClosed := true;
    }

    /**
     * SetHeartBeat fails while the service is running and changes nothing;
     * otherwise (before Serv or after it has returned) it sets both values.
     */
    method SetHeartBeat(interval: int, timeout: int) returns (err: Option<Error>)
      modifies this`hbInterval, this`hbTimeout
      ensures err.Some? <==> status == Running
      ensures err.Some? ==>
        err.value == HeartBeatWhileRunning && hbInterval == old(hbInterval) && hbTimeout == old(hbTimeout)
      ensures err.None? ==> hbInterval == interval && hbTimeout == timeout
    {
      if status == Running {
        return Some(HeartBeatWhileRunning);
      }
      hbInterval := interval;
      hbTimeout := timeout;
      err := None;
    }

    /** GetConnsCount counts the registry entries one by one. */
    method GetConnsCount() returns (count: nat)
      ensures count == |sessions|
    {
      count := 0;
      var left := sessions.Keys;
      while left != {}
        invariant left <= sessions.Keys
        invariant count + |left| == |sessions|
        decreases left
      {
        var sid :| sid in left;
        count := count + 1;
        left := left - {sid};
      }
    }

    /**
     * Unicast: when `sid` is registered, its connection's send queue gains
     * Encode(msg) if encoding succeeds; every other queue, and the registry,
     * stay as they were. An unknown `sid` changes nothing.
     */
    method Unicast(sid: SessionId, msg: Message)
      requires Valid()
      modifies Conns()
      ensures forall k :: k in sessions ==>
        sessions[k].conn.sendQueue ==
          old(sessions[k].conn.sendQueue) + (if k == sid then Enqueued(codec, msg) else [])
      ensures forall c :: c in Conns() ==>
        c.messages == old(c.messages) && c.done == old(c.done) && c.written == old(c.written)
        && c.timerArmed == old(c.timerArmed) && c.closed == old(c.closed)
    {
      if sid in sessions {
        var _ := sessions[sid].conn.SendMessage(msg);
      }
    }

    /**
     * Broadcast: every registered session's connection is asked to send
     * `msg`; a failure on one does not stop the others, so each queue gains
     * Encode(msg) when encoding succeeds. Nothing else changes.
     */
    method Broadcast(msg: Message)
      requires Valid()
      modifies Conns()
      ensures forall k :: k in sessions ==>
        sessions[k].conn.sendQueue == old(sessions[k].conn.sendQueue) + Enqueued(codec, msg)
      ensures forall c :: c in Conns() ==>
        c.messages == old(c.messages) && c.done == old(c.done) && c.written == old(c.written)
        && c.timerArmed == old(c.timerArmed) && c.closed == old(c.closed)
    {
      var left := sessions.Keys;
      while left != {}
        invariant left <= sessions.Keys
        invariant forall k :: k in sessions ==>
          var c := sessions[k].conn;
          && c.sendQueue == old(c.sendQueue) + (if k in left then [] else Enqueued(codec, msg))
          && c.messages == old(c.messages) && c.done == old(c.done) && c.written == old(c.written)
          && c.timerArmed == old(c.timerArmed) && c.closed == old(c.closed)
        decreases left
      {
        var sid :| sid in left;
        var _ := sessions[sid].conn.SendMessage(msg);
        left := left - {sid};
      }
    }

    /**
     * The entry of connectHandler: a new connection with the service's
     * heartbeat settings, stored under `sid` in the registry.
     */
    method OpenSession(sid: SessionId, remote: string) returns (conn: Conn)
      requires Valid()
      modifies this`sessions
      ensures Valid() && fresh(conn)
      ensures sessions == old(sessions)[sid := Session(sid, conn)]
      ensures sid !in old(sessions) ==> |sessions| == |old(sessions)| + 1
      ensures conn.hbInterval == hbInterval && conn.hbTimeout == hbTimeout && conn.codec == codec
      ensures conn.name == remote
      ensures conn.sendQueue == [] && conn.messages == [] && conn.done == [] && conn.written == [] && !conn.closed
      ensures conn.timerArmed <==> hbInterval != 0
    {
      conn := new Conn(remote, hbInterval, hbTimeout, codec);
      sessions := sessions[sid := Session(sid, conn)];
    }

    /** The deferred exit of connectHandler: close the connection and delete `sid`. */
    method CloseSession(sid: SessionId, conn: Conn)
      requires Valid()
      modifies this`sessions, conn`timerArmed, conn`closed
      ensures Valid()
      ensures sessions == old(sessions) - {sid}
      ensures sid in old(sessions) ==> |sessions| == |old(sessions)| - 1
      ensures conn.closed && !conn.timerArmed
    {
      conn.Close();
      sessions := sessions - {sid};
    }

    /**
     * The select loop of connectHandler, after onConnect: for the events the
     * connection's `done` and message channels deliver, in that order, the
     * callbacks made; the first error ends the loop.
     */
    method HandleEvents(sid: SessionId, events: seq<Event>) returns (calls: seq<Call>)
      ensures calls == Loop(sid, handlers, events)
    {
      calls := [];
      var i := 0;
      while i < |events|
        invariant 0 <= i <= |events|
        invariant forall j :: 0 <= j < i ==> events[j].Received?
        invariant calls == Loop(sid, handlers, events[..i])
      {
        LoopAppend(sid, handlers, events[..i], [events[i]]);
        assert events[..i] + [events[i]] == events[..i + 1];
        match events[i] {
          case Done(e) =>
            if handlers.onDisconnect {
              calls := calls + [OnDisconnect(sid, e)];
            }
            LoopIgnoresAfterDone(sid, handlers, events[..i], e, events[i + 1..]);
            assert events[..i] + [Done(e)] + events[i + 1..] == events;
            return;
          case Received(m) =>
            if handlers.onMessage {
              calls := calls + [OnMessage(sid, m)];
            }
            i := i + 1;
        }
      }
      assert events[..i] == events;
    }

    /**
     * The callbacks of connectHandler from onConnect until it returns:
     * onConnect if registered, then the select loop, which returns at the
     * first error, so `events` holds one.
     */
    method RunCallbacks(sid: SessionId, events: seq<Event>) returns (calls: seq<Call>)
      requires FirstDone(events).Some?
      ensures calls == Dispatch(sid, handlers, events)
      ensures handlers.onDisconnect ==>
        |calls| > 0 && calls[|calls| - 1] == OnDisconnect(sid, FirstDone(events).value)
    {
      var connected := if handlers.onConnect then [OnConnect(sid)] else [];
      var looped := HandleEvents(sid, events);
      calls := connected + looped;
      if handlers.onDisconnect {
        DisconnectEndsDispatch(sid, handlers, events);
      }
    }

    /**
     * connectHandler, from start to return: register the session, make the
     * callbacks, then close the connection and unregister. The handler
     * returns only after an error arrives on `done`, so `events` holds one.
     * A session ID that was not registered before leaves the registry as it was.
     */
    method ConnectHandler(sid: SessionId, remote: string, events: seq<Event>) returns (calls: seq<Call>)
      requires Valid()
      requires FirstDone(events).Some?
      modifies this`sessions
      ensures Valid()
      ensures calls == Dispatch(sid, handlers, events)
      ensures handlers.onDisconnect ==>
        |calls| > 0 && calls[|calls| - 1] == OnDisconnect(sid, FirstDone(events).value)
      ensures sessions == old(sessions) - {sid}
      ensures sid !in old(sessions) ==> sessions == old(sessions)
    {
      var conn := OpenSession(sid, remote);
      calls := RunCallbacks(sid, events);
      CloseSession(sid, conn);
      StoreThenDelete(old(sessions), sid, Session(sid, conn));
    }
  }

  /** Storing a key and deleting it again leaves the map as it was without that key. */
  lemma StoreThenDelete<K, V>(m: map<K, V>, k: K, v: V)
    ensures m[k := v] - {k} == m - {k}
    ensures k !in m ==> m - {k} == m
  {
  }

  /**
   * NewSocketService: when the listener cannot be opened (`listenErr`), no
   * service and that error; otherwise an inited service with both heartbeat
   * values 0 and no sessions.
   */
  method NewSocketService(laddr: string, codec: Codec, listenErr: Option<Error>)
    returns (s: SocketService?, err: Option<Error>)
    ensures err == listenErr
    ensures s == null <==> err.Some?
    ensures s != null ==>
      && fresh(s) && s.Valid() && s.laddr == laddr
      && s.status == Inited && s.hbInterval == 0 && s.hbTimeout == 0 && s.sessions == map[]
      && s.handlers == Handlers(false, false, false) && !s.listenerClosed
  {
    if listenErr.Some? {
      return null, listenErr;
    }
    s := new SocketService(laddr, codec);
    err := None;
  }
}
