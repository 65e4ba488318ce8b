/** The per-stream connection hooks (src/shared/hooks/use-websocket.ts).

    Each of `useAIWebSocket`, `useBPMWebSocket` and `useUCWebSocket` holds at
    most one client (created on the first `connect`, with no error handler
    and the hook's status handler), forwards parsed messages to its stream
    of the store and maps the client's transport events to the stored
    connection status. The three hooks differ only in the stream they feed,
    so one `SocketHook` class is instantiated per stream. */
module UseWebSocket {
  import opened Common
  import opened Types
  import opened WebSocketStore
  import opened WebSocketSelectors
  import opened WebSocketClientModel

  /** `handleStatusChange`'s mapping; it never yields `Connecting`. */
  function StatusOf(event: TransportEvent): (s: SocketStatus)
    ensures s != Connecting
    ensures s == Connected <==> event == OpenEvent
    ensures s == Error <==> event == ErrorEvent
    ensures s == Disconnected <==> event == CloseEvent
  {
    match event
    case OpenEvent => Connected
    case ErrorEvent => Error
    case CloseEvent => Disconnected
  }

  /** The transport event a stored status comes from; `Connecting` comes
      from none. */
  function EventOf(s: SocketStatus): Option<TransportEvent>
  {
    match s
    case Connected => Some(OpenEvent)
    case Error => Some(ErrorEvent)
    case Disconnected => Some(CloseEvent)
    case Connecting => None
  }

  /** The mapping is one-to-one onto every status except `Connecting`. */
  lemma StatusOfRoundTrip(event: TransportEvent, s: SocketStatus)
    ensures EventOf(StatusOf(event)) == Some(event)
    ensures EventOf(s).Some? <==> s != Connecting
    ensures EventOf(s).Some? ==> StatusOf(EventOf(s).value) == s
  {
  }

  /** The hook's `isConnected`: read from the stored status, not from the
      client. */
  function IsConnectedStatus(s: SocketStatus): (r: bool)
    ensures r <==> EventOf(s) == Some(OpenEvent)
  {
    s == Connected
  }

  /** `useAllWebSockets`'s `allConnected`. */
  function AllConnected(ai: SocketStatus, bpm: SocketStatus, uc: SocketStatus): bool
  {
    IsConnectedStatus(ai) && IsConnectedStatus(bpm) && IsConnectedStatus(uc)
  }

  /** The hooks' `allConnected` and the store selector agree. */
  lemma AllConnectedAgreesWithSelector(store: Store)
    ensures AllConnected(store.ai.status, store.bpm.status, store.uc.status)
      == AllSocketsConnected(store)
    ensures AllConnected(store.ai.status, store.bpm.status, store.uc.status)
      <==> ConnectionStatus(store) == (Connected, Connected, Connected)
  {
  }

  class SocketHook<M> {
    const stream: Stream<M>
    /** `socketRef.current` */
    var client: WebSocketClient?<M>

    /** The stream stays valid and never shows `Connecting`; a client, once
        created, has the hook's handlers and the default options. */
    ghost predicate Valid()
      reads this, stream, client
    {
      && stream.Valid()
      && stream.status != Connecting
      && (client != null ==>
            && client.Valid()
            && !client.hasErrorHandler && client.hasStatusHandler
            && client.reconnectInterval == DEFAULT_RECONNECT_INTERVAL
            && client.maxReconnectAttempts == DEFAULT_MAX_RECONNECT_ATTEMPTS)
    }

    constructor (stream: Stream<M>)
      requires stream.Valid() && stream.status != Connecting
      ensures Valid()
      ensures this.stream == stream && client == null
    {
      this.stream := stream;
      client := null;
    }

    /** `connect`: create the client on first use, then connect it. */
    method Connect()
      requires Valid()
      modifies this, client
      ensures Valid()
      ensures client != null
      ensures old(client) != null ==> client == old(client)
      ensures old(client) == null ==>
        fresh(client) && client.socketsCreated == 1 && client.ws == Some(Socket(1, SocketConnecting))
      ensures old(client) != null && !old(client.IsConnected()) ==>
        client.ws == Some(Socket(client.socketsCreated, SocketConnecting)) && !client.isIntentionallyClosed
      ensures old(client) != null && old(client.IsConnected()) ==> client.ws == old(client.ws)
    {
      if client == null {
        client := new WebSocketClient(None, None, false, true);
      }
      client.Connect();
    }

    /** `disconnect`: a no-op before the first `connect`. */
    method Disconnect()
      requires Valid()
      modifies client
      ensures Valid()
      ensures client != null ==>
        client.isIntentionallyClosed && client.ws == None && client.reconnectAttempts == 0 && !client.timerHandle
    {
      if client != null {
        client.Disconnect();
      }
    }

    /** `handleMessage` */
    method HandleMessage(message: M)
      requires Valid()
      modifies stream
      ensures Valid()
      ensures stream.data == Append(old(stream.data), message) && stream.last == Some(message)
      ensures stream.status == old(stream.status)
    {
      stream.Add(message);
    }

    /** `handleStatusChange` */
    method HandleStatusChange(event: TransportEvent)
      requires Valid()
      modifies stream
      ensures Valid()
      ensures stream.status == StatusOf(event)
      ensures stream.data == old(stream.data) && stream.last == old(stream.last)
    {
      stream.SetStatus(StatusOf(event));
    }

    /** Run one callback of the client against the store. The client has
        no error handler, so `ErrorReported` is never produced for it. */
    method Deliver(call: Callback<M>)
      requires Valid()
      modifies stream
      ensures Valid()
      ensures call.MessageDelivered? ==>
        stream.data == Append(old(stream.data), call.message) && stream.status == old(stream.status)
      ensures call.StatusChange? ==>
        stream.status == StatusOf(call.event) && stream.data == old(stream.data)
      ensures call.ErrorReported? ==> stream.data == old(stream.data) && stream.status == old(stream.status)
    {
      match call
      case MessageDelivered(m) => HandleMessage(m);
      case StatusChange(event) => HandleStatusChange(event);
      case ErrorReported =>
    }
  }

  /** `disconnect` does not touch the store: until the closed socket's
      close event arrives the hook still reports connected while its client
      reports not connected. */
  method DisconnectBeforeCloseEvent(stream: Stream<Sample>) returns (hookConnected: bool, clientConnected: bool)
    requires stream.Valid() && stream.status != Connecting
    modifies stream
    ensures hookConnected && !clientConnected
  {
    var hook := new SocketHook(stream);
    hook.Connect();
    var calls := hook.client.OnOpen(1);
    hook.Deliver(calls[0]);
    hook.Disconnect();
    hookConnected := IsConnectedStatus(hook.stream.status);
    clientConnected := hook.client.IsConnected();
  }
}
