/**
 * The callback dispatch of the service's connection handler
 * (service.go:133-151). The handler's `select` between the connection's
 * `done` channel and its message queue is given as the sequence of events
 * in the order the handler receives them; the result is the sequence of
 * application callbacks it makes.
 */
module Callbacks {
  import opened Protocol

  type SessionId = string

  /** What the handler's `select` receives: a decoded message, or an error from `done`. */
  datatype Event = Received(msg: Message) | Done(err: Error)

  /** An invocation of one of the application's callbacks. */
  datatype Call =
    | OnConnect(sid: SessionId)
    | OnMessage(sid: SessionId, msg: Message)
    | OnDisconnect(sid: SessionId, err: Error)

  /** Which of the three callbacks are registered (non-nil). */
  datatype Handlers = Handlers(onConnect: bool, onMessage: bool, onDisconnect: bool)

  /** The handler's `for`/`select` loop: messages until the first error, which ends it. */
  function Loop(sid: SessionId, h: Handlers, events: seq<Event>): (calls: seq<Call>)
    ensures |calls| <= |events|
    ensures forall c :: c in calls ==> c.sid == sid && !c.OnConnect?
  {
    if events == [] then []
    else
      match events[0]
      case Done(e) => if h.onDisconnect then [OnDisconnect(sid, e)] else []
      case Received(m) => (if h.onMessage then [OnMessage(sid, m)] else []) + Loop(sid, h, events[1..])
  }

  /** All callbacks of one connection handler: onConnect, then the loop. */
  function Dispatch(sid: SessionId, h: Handlers, events: seq<Event>): (calls: seq<Call>)
    ensures |calls| <= |events| + 1
    ensures forall c :: c in calls ==> c.sid == sid
  {
    (if h.onConnect then [OnConnect(sid)] else []) + Loop(sid, h, events)
  }

  // An independent description of the same behaviour.

  /** The messages received before the first error. */
  function MessagesBeforeDone(events: seq<Event>): (ms: seq<Message>) {
    if events == [] || events[0].Done? then []
    else [events[0].msg] + MessagesBeforeDone(events[1..])
  }

  /** The first error received, if any. */
  function FirstDone(events: seq<Event>): (first: Option<Error>) {
    if events == [] then None
    else if events[0].Done? then Some(events[0].err)
    else FirstDone(events[1..])
  }

  /** One onMessage call per message, in order, when the callback is registered. */
  function MessageCalls(sid: SessionId, h: Handlers, ms: seq<Message>): (r: seq<Call>)
    ensures |r| == if h.onMessage then |ms| else 0
    ensures forall i :: 0 <= i < |r| ==> r[i] == OnMessage(sid, ms[i])
  {
    if h.onMessage then seq(|ms|, i requires 0 <= i < |ms| => OnMessage(sid, ms[i])) else []
  }

  /** The disconnect call for the first error, when there is one and the callback is registered. */
  function DisconnectCalls(sid: SessionId, h: Handlers, first: Option<Error>): (r: seq<Call>) {
    if h.onDisconnect && first.Some? then [OnDisconnect(sid, first.value)] else []
  }

  /**
   * The loop forwards exactly the messages before the first error, in
   * order, then calls onDisconnect once with that error; a nil callback
   * contributes nothing.
   */
  lemma {:induction false} LoopClosedForm(sid: SessionId, h: Handlers, events: seq<Event>)
    ensures Loop(sid, h, events) ==
            MessageCalls(sid, h, MessagesBeforeDone(events)) + DisconnectCalls(sid, h, FirstDone(events))
  {
    if events != [] && events[0].Received? {
      var m, tail := events[0].msg, events[1..];
      LoopClosedForm(sid, h, tail);
      var ms := MessagesBeforeDone(tail);
      assert MessagesBeforeDone(events) == [m] + ms;
      assert MessageCalls(sid, h, [m] + ms) == (if h.onMessage then [OnMessage(sid, m)] else []) + MessageCalls(sid, h, ms);
    }
  }

  /** No event after the first error is processed. */
  lemma {:induction false} LoopIgnoresAfterDone(sid: SessionId, h: Handlers, before: seq<Event>, e: Error, after: seq<Event>)
    requires forall i :: 0 <= i < |before| ==> before[i].Received?
    ensures Loop(sid, h, before + [Done(e)] + after) == Loop(sid, h, before + [Done(e)])
  {
    if before != [] {
      assert (before + [Done(e)] + after)[1..] == before[1..] + [Done(e)] + after;
      assert (before + [Done(e)])[1..] == before[1..] + [Done(e)];
      LoopIgnoresAfterDone(sid, h, before[1..], e, after);
    }
  }

  /** Dispatching a prefix free of errors, then the rest, is dispatching the whole. */
  lemma {:induction false} LoopAppend(sid: SessionId, h: Handlers, before: seq<Event>, after: seq<Event>)
    requires forall i :: 0 <= i < |before| ==> before[i].Received?
    ensures Loop(sid, h, before + after) == Loop(sid, h, before) + Loop(sid, h, after)
  {
    if before != [] {
      assert (before + after)[1..] == before[1..] + after;
      LoopAppend(sid, h, before[1..], after);
    } else {
      assert before + after == after;
    }
  }

  /** Dispatch, spelled out from the independent description. */
  lemma {:induction false} DispatchClosedForm(sid: SessionId, h: Handlers, events: seq<Event>)
    ensures Dispatch(sid, h, events) ==
            (if h.onConnect then [OnConnect(sid)] else [])
            + MessageCalls(sid, h, MessagesBeforeDone(events))
            + DisconnectCalls(sid, h, FirstDone(events))
  {
    LoopClosedForm(sid, h, events);
  }

  /** onConnect is the first call when it is registered, and is never made anywhere else. */
  lemma {:induction false} ConnectFirst(sid: SessionId, h: Handlers, events: seq<Event>)
    ensures var calls := Dispatch(sid, h, events);
      && (h.onConnect <==> |calls| > 0 && calls[0].OnConnect?)
      && forall i :: 0 < i < |calls| ==> !calls[i].OnConnect?
  {
    DispatchClosedForm(sid, h, events);
    ConnectOnlyAtHead(sid, h.onConnect, MessageCalls(sid, h, MessagesBeforeDone(events)),
                      DisconnectCalls(sid, h, FirstDone(events)));
  }

  /** An optional onConnect followed by calls that are not onConnect. */
  lemma ConnectOnlyAtHead(sid: SessionId, connect: bool, f: seq<Call>, d: seq<Call>)
    requires forall i :: 0 <= i < |f| ==> f[i].OnMessage?
    requires forall i :: 0 <= i < |d| ==> d[i].OnDisconnect?
    ensures var calls := (if connect then [OnConnect(sid)] else []) + f + d;
      && (connect <==> |calls| > 0 && calls[0].OnConnect?)
      && forall i :: 0 < i < |calls| ==> !calls[i].OnConnect?
  {
    var c := if connect then [OnConnect(sid)] else [];
    var calls := c + f + d;
    forall i | 0 <= i < |calls|
      ensures calls[i].OnConnect? <==> connect && i == 0
    {
      if i >= |c| + |f| {
        assert calls[i] == d[i - |c| - |f|];
      } else if i >= |c| {
        assert calls[i] == f[i - |c|];
      }
    }
  }

  /**
   * onDisconnect is made at most once, as the last call, with the first
   * error received; it is made exactly when that callback is registered
   * and an error arrived.
   */
  lemma {:induction false} DisconnectOnceAndLast(sid: SessionId, h: Handlers, events: seq<Event>)
    ensures var calls := Dispatch(sid, h, events);
      && (forall i :: 0 <= i < |calls| && calls[i].OnDisconnect? ==>
            i == |calls| - 1 && h.onDisconnect && FirstDone(events) == Some(calls[i].err))
      && (h.onDisconnect && FirstDone(events).Some? <==> |calls| > 0 && calls[|calls| - 1].OnDisconnect?)
  {
    DispatchClosedForm(sid, h, events);
    DisconnectOnlyAtEnd(sid, h, if h.onConnect then [OnConnect(sid)] else [],
                        MessageCalls(sid, h, MessagesBeforeDone(events)), FirstDone(events));
  }

  /** Calls that are not onDisconnect, followed by the disconnect call for `first`. */
  lemma DisconnectOnlyAtEnd(sid: SessionId, h: Handlers, c: seq<Call>, f: seq<Call>, first: Option<Error>)
    requires forall i :: 0 <= i < |c| ==> !c[i].OnDisconnect?
    requires forall i :: 0 <= i < |f| ==> f[i].OnMessage?
    ensures var calls := c + f + DisconnectCalls(sid, h, first);
      && (forall i :: 0 <= i < |calls| && calls[i].OnDisconnect? ==>
            i == |calls| - 1 && h.onDisconnect && first == Some(calls[i].err))
      && (h.onDisconnect && first.Some? <==> |calls| > 0 && calls[|calls| - 1].OnDisconnect?)
  {
    var d := DisconnectCalls(sid, h, first);
    var calls := c + f + d;
    forall i | 0 <= i < |calls|
      ensures calls[i].OnDisconnect? ==> i == |calls| - 1 && h.onDisconnect && first == Some(calls[i].err)
    {
      if i >= |c| + |f| {
        assert calls[i] == d[i - |c| - |f|];
      } else if i >= |c| {
        assert calls[i] == f[i - |c|];
      }
    }
  }

  /** With onDisconnect registered and an error received, the last call is the disconnect for the first error. */
  lemma {:induction false} DisconnectEndsDispatch(sid: SessionId, h: Handlers, events: seq<Event>)
    requires h.onDisconnect && FirstDone(events).Some?
    ensures var calls := Dispatch(sid, h, events);
      |calls| > 0 && calls[|calls| - 1] == OnDisconnect(sid, FirstDone(events).value)
  {
    var c := if h.onConnect then [OnConnect(sid)] else [];
    var f := MessageCalls(sid, h, MessagesBeforeDone(events));
    var d := DisconnectCalls(sid, h, FirstDone(events));
    DispatchClosedForm(sid, h, events);
    assert d == [OnDisconnect(sid, FirstDone(events).value)];
    assert (c + f + d)[|c + f + d| - 1] == d[0];
  }

  /** The onMessage calls are exactly the messages before the first error, in arrival order. */
  lemma {:induction false} ForwardedInOrder(sid: SessionId, h: Handlers, events: seq<Event>)
    requires h.onMessage
    ensures var calls := Dispatch(sid, h, events);
      var first := if h.onConnect then 1 else 0;
      var ms := MessagesBeforeDone(events);
      |calls| >= first + |ms| && calls[first..first + |ms|] == MessageCalls(sid, h, ms)
  {
    var c := if h.onConnect then [OnConnect(sid)] else [];
    var f := MessageCalls(sid, h, MessagesBeforeDone(events));
    var d := DisconnectCalls(sid, h, FirstDone(events));
    DispatchClosedForm(sid, h, events);
    assert (c + f + d)[|c|..|c| + |f|] == f;
  }
}
