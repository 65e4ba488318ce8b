/** The reconnecting WebSocket client (src/shared/api/websocket.ts).

    The browser drives the client through events: a socket opens, delivers
    a message, reports an error or closes, and a scheduled reconnect timer
    fires. Each is a method here. The socket an event comes from is named by
    the id the client gave it when creating it; the handlers close over the
    client and not over the socket, so an event from a socket the client has
    since replaced still runs them; only the ready state of the current
    socket is kept.

    What the client calls back (`onMessage`, `onError`, `onStatusChange`) is
    returned as a list of `Callback` values, in call order; the optional
    handlers are present or not per client. Timers are counted: every
    reconnect timer has the same delay, so they fire in the order they were
    scheduled, and the one `reconnectTimeout` remembers, the latest, is the
    last to fire; while any timer is pending, so is that one. */
module WebSocketClientModel {
  import opened Common

  /** `WebSocket.readyState` */
  datatype ReadyState = SocketConnecting | SocketOpen | SocketClosing | SocketClosed

  datatype Socket = Socket(id: nat, state: ReadyState)

  /** The argument of the status handler: 'open' | 'close' | 'error'. */
  datatype TransportEvent = OpenEvent | CloseEvent | ErrorEvent

  datatype Callback<M> = StatusChange(event: TransportEvent) | ErrorReported | MessageDelivered(message: M)

  const DEFAULT_RECONNECT_INTERVAL: int := 3000
  const DEFAULT_MAX_RECONNECT_ATTEMPTS: int := 5

  /** `config.x ?? default`: only an absent option takes the default. */
  function OrDefault(option: Option<int>, default: int): (r: int)
    ensures option.Some? ==> r == option.value
    ensures option.None? ==> r == default
  {
    if option.Some? then option.value else default
  }

  class WebSocketClient<M> {
    const reconnectInterval: int
    const maxReconnectAttempts: int
    const hasErrorHandler: bool
    const hasStatusHandler: bool

    var ws: Option<Socket>
    /** Sockets created so far; the next one gets id `socketsCreated + 1`. */
    var socketsCreated: nat
    var reconnectAttempts: nat
    /** Reconnect timers scheduled and not yet fired or cleared. */
    var pendingTimers: nat
    /** `reconnectTimeout !== null` */
    var timerHandle: bool
    var isIntentionallyClosed: bool

    /** The current socket is one the client created, and the attempt
        counter never passes the maximum (it stays 0 when the maximum is
        not positive). */
    ghost predicate Valid()
      reads this
    {
      && (ws.Some? ==> 1 <= ws.value.id <= socketsCreated)
      && (reconnectAttempts == 0 || reconnectAttempts <= maxReconnectAttempts)
    }

    constructor (reconnectInterval: Option<int>, maxReconnectAttempts: Option<int>,
                 hasErrorHandler: bool, hasStatusHandler: bool)
      ensures Valid()
      ensures this.reconnectInterval == OrDefault(reconnectInterval, DEFAULT_RECONNECT_INTERVAL)
      ensures this.maxReconnectAttempts == OrDefault(maxReconnectAttempts, DEFAULT_MAX_RECONNECT_ATTEMPTS)
      ensures this.hasErrorHandler == hasErrorHandler && this.hasStatusHandler == hasStatusHandler
      ensures ws == None && socketsCreated == 0 && reconnectAttempts == 0
      ensures pendingTimers == 0 && !timerHandle && !isIntentionallyClosed
    {
      this.reconnectInterval := OrDefault(reconnectInterval, DEFAULT_RECONNECT_INTERVAL);
      this.maxReconnectAttempts := OrDefault(maxReconnectAttempts, DEFAULT_MAX_RECONNECT_ATTEMPTS);
      this.hasErrorHandler := hasErrorHandler;
      this.hasStatusHandler := hasStatusHandler;
      ws := None;
      socketsCreated := 0;
      reconnectAttempts := 0;
      pendingTimers := 0;
      timerHandle := false;
      isIntentionallyClosed := false;
    }

    /** `isConnected`: the current socket is open. */
    predicate IsConnected()
      reads this
      ensures IsConnected() ==> ws.Some?
      ensures Valid() && IsConnected() ==> socketsCreated >= 1
    {
      ws.Some? && ws.value.state == SocketOpen
    }

    /** `connect`: nothing when the current socket is open; otherwise a new
        socket (in state CONNECTING) replaces it, even one still connecting,
        and the intentional-close flag is cleared. */
    method Connect()
      requires Valid()
      modifies this
      ensures Valid()
      ensures old(IsConnected()) ==>
        ws == old(ws) && socketsCreated == old(socketsCreated) && isIntentionallyClosed == old(isIntentionallyClosed)
      ensures !old(IsConnected()) ==>
        && socketsCreated == old(socketsCreated) + 1
        && ws == Some(Socket(socketsCreated, SocketConnecting))
        && !isIntentionallyClosed
      ensures reconnectAttempts == old(reconnectAttempts)
      ensures pendingTimers == old(pendingTimers) && timerHandle == old(timerHandle)
    {
      if ws.Some? && ws.value.state == SocketOpen {
        return;
      }
      isIntentionallyClosed := false;
      socketsCreated := socketsCreated + 1;
      ws := Some(Socket(socketsCreated, SocketConnecting));
    }

    /** The ready state of the current socket after an event from socket
        `id` moved that socket to `state`. */
    function AfterEvent(id: nat, state: ReadyState): (r: Option<Socket>)
      reads this
      ensures ws.Some? && ws.value.id == id ==> r == Some(Socket(id, state))
      ensures !(ws.Some? && ws.value.id == id) ==> r == ws
    {
      if ws.Some? && ws.value.id == id then Some(Socket(id, state)) else ws
    }

    /** The status handler's call, when there is a handler. */
    function StatusCall(event: TransportEvent): (calls: seq<Callback<M>>)
      ensures calls == [] || calls == [StatusChange(event)]
      ensures hasStatusHandler <==> calls == [StatusChange(event)]
    {
      if hasStatusHandler then [StatusChange(event)] else []
    }

    /** `onopen`: the attempt counter is reset and 'open' reported. */
    method OnOpen(id: nat) returns (calls: seq<Callback<M>>)
      requires Valid()
      modifies this
      ensures Valid()
      ensures ws == old(AfterEvent(id, SocketOpen))
      ensures reconnectAttempts == 0
      ensures calls == StatusCall(OpenEvent)
      ensures socketsCreated == old(socketsCreated) && isIntentionallyClosed == old(isIntentionallyClosed)
      ensures pendingTimers == old(pendingTimers) && timerHandle == old(timerHandle)
    {
      ws := AfterEvent(id, SocketOpen);
      reconnectAttempts := 0;
      calls := StatusCall(OpenEvent);
    }

    /** `onmessage`: `decoded` is the result of `JSON.parse` on the frame,
        None when it throws; a frame that does not parse is dropped. */
    method OnMessage(id: nat, decoded: Option<M>) returns (calls: seq<Callback<M>>)
      ensures decoded.Some? ==> calls == [MessageDelivered(decoded.value)]
      ensures decoded.None? ==> calls == []
    {
      if decoded.Some? {
        calls := [MessageDelivered(decoded.value)];
      } else {
        calls := [];
      }
    }

    /** `onerror`: the error handler, then 'error'; the client's state does
        not change (the browser follows an error with a close). */
    method OnError(id: nat) returns (calls: seq<Callback<M>>)
      ensures calls == (if hasErrorHandler then [ErrorReported] else []) + StatusCall(ErrorEvent)
    {
      calls := [];
      if hasErrorHandler {
        calls := calls + [ErrorReported];
      }
      calls := calls + StatusCall(ErrorEvent);
    }

    /** The browser starts the closing handshake of socket `id` (the server
        began closing it, or the network went away): its ready state becomes
        CLOSING, and the close event follows later. The client installs no
        handler for this, so nothing is called and no counter moves; if it
        is the current socket, the client is no longer connected from here
        on, so `connect` and a firing timer create a new socket over it. */
    method OnClosing(id: nat)
      requires Valid()
      modifies this
      ensures Valid()
      ensures ws == old(AfterEvent(id, SocketClosing))
      ensures old(ws).Some? && old(ws).value.id == id ==> !IsConnected()
      ensures socketsCreated == old(socketsCreated) && isIntentionallyClosed == old(isIntentionallyClosed)
      ensures reconnectAttempts == old(reconnectAttempts)
      ensures pendingTimers == old(pendingTimers) && timerHandle == old(timerHandle)
    {
      ws := AfterEvent(id, SocketClosing);
    }

    /** `onclose`: 'close' is reported and, unless the close was
        intentional, a reconnect is attempted. */
    method OnClose(id: nat) returns (calls: seq<Callback<M>>)
      requires Valid()
      modifies this
      ensures Valid()
      ensures calls == StatusCall(CloseEvent)
      ensures ws == old(AfterEvent(id, SocketClosed))
      ensures socketsCreated == old(socketsCreated) && isIntentionallyClosed == old(isIntentionallyClosed)
      ensures old(isIntentionallyClosed) ==>
        reconnectAttempts == old(reconnectAttempts) && pendingTimers == old(pendingTimers) && timerHandle == old(timerHandle)
      ensures !old(isIntentionallyClosed) ==> ReconnectScheduled(old(reconnectAttempts), old(pendingTimers), old(timerHandle))
    {
      ws := AfterEvent(id, SocketClosed);
      calls := StatusCall(CloseEvent);
      if !isIntentionallyClosed {
        AttemptReconnect();
      }
    }

    /** What `attemptReconnect` leaves, given the counters before it: once
        `maxReconnectAttempts` attempts have been made nothing; otherwise one
        more attempt and one more timer, remembered in the handle. */
    ghost predicate ReconnectScheduled(attempts: nat, timers: nat, handle: bool)
      reads this
    {
      if attempts >= maxReconnectAttempts then
        reconnectAttempts == attempts && pendingTimers == timers && timerHandle == handle
      else
        reconnectAttempts == attempts + 1 && pendingTimers == timers + 1 && timerHandle
    }

    /** `attemptReconnect` */
    method AttemptReconnect()
      requires Valid()
      modifies this
      ensures Valid()
      ensures ReconnectScheduled(old(reconnectAttempts), old(pendingTimers), old(timerHandle))
      ensures ws == old(ws) && socketsCreated == old(socketsCreated) && isIntentionallyClosed == old(isIntentionallyClosed)
    {
      if reconnectAttempts >= maxReconnectAttempts {
        return;
      }
      reconnectAttempts := reconnectAttempts + 1;
      pendingTimers := pendingTimers + 1;
      timerHandle := true;
    }

    /** The oldest pending reconnect timer fires and calls `connect`. The
        handle is not cleared when its timer fires. */
    method FireTimer()
      requires Valid()
      modifies this
      ensures Valid()
      ensures old(pendingTimers) == 0 ==>
        ws == old(ws) && socketsCreated == old(socketsCreated) && pendingTimers == 0
      ensures old(pendingTimers) > 0 ==> pendingTimers == old(pendingTimers) - 1
      ensures old(pendingTimers) > 0 && old(IsConnected()) ==>
        ws == old(ws) && socketsCreated == old(socketsCreated)
      ensures old(pendingTimers) > 0 && !old(IsConnected()) ==>
        socketsCreated == old(socketsCreated) + 1 && ws == Some(Socket(socketsCreated, SocketConnecting)) && !isIntentionallyClosed
      ensures reconnectAttempts == old(reconnectAttempts) && timerHandle == old(timerHandle)
    {
      if pendingTimers == 0 {
        return;
      }
      pendingTimers := pendingTimers - 1;
      Connect();
    }

    /** `disconnect`: marks the close intentional, clears the remembered
        timer (the latest scheduled), closes and forgets the socket, and
        resets the attempt counter. Timers scheduled before the latest one
        are not cleared. */
    method Disconnect()
      requires Valid()
      modifies this
      ensures Valid()
      ensures isIntentionallyClosed && ws == None && reconnectAttempts == 0 && !timerHandle
      ensures old(timerHandle) && old(pendingTimers) > 0 ==> pendingTimers == old(pendingTimers) - 1
      ensures !(old(timerHandle) && old(pendingTimers) > 0) ==> pendingTimers == old(pendingTimers)
      ensures socketsCreated == old(socketsCreated)
    {
      isIntentionallyClosed := true;
      if timerHandle {
        if pendingTimers > 0 {
          pendingTimers := pendingTimers - 1;
        }
        timerHandle := false;
      }
      ws := None;
      reconnectAttempts := 0;
    }
  }

  /** One failed round: the current (connecting) socket closes, a
      reconnect is scheduled, and its timer opens the next socket. */
  method FailedRound<M>(c: WebSocketClient<M>)
    requires c.Valid() && c.ws.Some? && c.ws.value.state == SocketConnecting
    requires !c.isIntentionallyClosed && c.pendingTimers == 0
    requires c.reconnectAttempts < c.maxReconnectAttempts
    modifies c
    ensures c.Valid() && c.ws == Some(Socket(c.socketsCreated, SocketConnecting))
    ensures !c.isIntentionallyClosed && c.pendingTimers == 0
    ensures c.reconnectAttempts == old(c.reconnectAttempts) + 1
    ensures c.socketsCreated == old(c.socketsCreated) + 1
  {
    var calls := c.OnClose(c.ws.value.id);
    c.FireTimer();
  }

  /** With the default options, a server that never accepts gets the first
      socket and five reconnects; the sixth close schedules nothing, and the
      client stays closed for good. */
  method RetriesRunOut() returns (c: WebSocketClient<int>)
    ensures c.Valid()
    ensures c.socketsCreated == 6 && c.reconnectAttempts == 5 && c.pendingTimers == 0
    ensures c.ws == Some(Socket(6, SocketClosed)) && !c.IsConnected()
  {
    c := new WebSocketClient(None, None, false, true);
    c.Connect();
    FailedRound(c);
    FailedRound(c);
    FailedRound(c);
    FailedRound(c);
    FailedRound(c);
    var calls := c.OnClose(6);
    c.FireTimer();
  }

  /** The server starts closing an open socket, and `connect` is called
      before the close event arrives (by hand, or by an older timer that
      `disconnect` did not clear): a second socket is created over the
      closing one. The first socket's close event then still reports
      'close' and schedules a reconnect while the second is connecting. */
  method ConnectWhileClosing() returns (c: WebSocketClient<int>, calls: seq<Callback<int>>)
    ensures c.Valid()
    ensures c.socketsCreated == 2 && c.ws == Some(Socket(2, SocketConnecting))
    ensures calls == [StatusChange(CloseEvent)]
    ensures c.reconnectAttempts == 1 && c.pendingTimers == 1
  {
    c := new WebSocketClient(None, None, false, true);
    c.Connect();
    var onOpen := c.OnOpen(1);
    c.OnClosing(1);
    c.Connect();
    calls := c.OnClose(1);
  }

  /** `disconnect` followed at once by `connect` (an effect cleanup and
      re-run): the close event of the socket `disconnect` closed arrives
      after the flag was cleared again, so it schedules a reconnect although
      the close was intentional. */
  method LateCloseAfterReconnect() returns (c: WebSocketClient<int>)
    ensures c.Valid()
    ensures c.ws == Some(Socket(2, SocketConnecting))
    ensures c.reconnectAttempts == 1 && c.pendingTimers == 1
  {
    c := new WebSocketClient(None, None, false, true);
    c.Connect();
    var onOpen := c.OnOpen(1);
    c.Disconnect();
    c.Connect();
    var onClose := c.OnClose(1);
  }
}
