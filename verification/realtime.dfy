/**
 * The realtime connection holder `SocketClient` of lib/socket.ts.
 *
 * The socket.io socket is abstracted as a `Socket` object: a `connected` flag, the
 * listener lists per event name, the events it has sent, and whether it was closed.
 * What socket.io itself reports (a successful connect, a failed attempt, a drop) enters
 * as methods of `SocketClient` naming the socket the report comes from, because the
 * listeners that `Connect` registers close over the client.
 */
module Realtime {
  import opened Wrappers
  import opened Seqs

  /** Events the server sends (the keys of `ServerToClientEvents`). */
  datatype ServerEvent =
    | MessageReceive | TypingStart | TypingStop | UserOnline | UserOffline
    | UserViewing | UserNotViewing | ChatUpdated | ServerError
  {
    /** The wire name of the event. */
    function Name(): string {
      match this
      case MessageReceive => "message:receive"
      case TypingStart => "typing:start"
      case TypingStop => "typing:stop"
      case UserOnline => "user:online"
      case UserOffline => "user:offline"
      case UserViewing => "user:viewing"
      case UserNotViewing => "user:not-viewing"
      case ChatUpdated => "chat:updated"
      case ServerError => "error"
    }
  }

  /** Events the client sends, with their payloads (`ClientToServerEvents`). */
  datatype ClientEvent =
    | MessageSend(chatId: string, message: string)
    | TypingStarted(chatId: string)
    | TypingStopped(chatId: string)
    | ChatJoin(chatId: string)
    | ChatLeave(chatId: string)
    | MessageRead(chatId: string, messageId: string)
    | ChatViewing(chatId: string)
    | ChatNotViewing(chatId: string)

  /** socket.io's reserved lifecycle events. */
  const ConnectEvent: string := "connect"
  const DisconnectEvent: string := "disconnect"
  const ConnectErrorEvent: string := "connect_error"

  /** A listener: the four that `Connect` installs, or a caller's callback, told apart by an id. */
  datatype Handler = LogConnected | LogDisconnected | CountConnectError | LogServerError | Callback(id: nat)

  datatype ConnectionState = Connected | Connecting | Disconnected

  /** `maxReconnectAttempts`. */
  const MaxReconnectAttempts: nat := 5

  /** The listeners `Connect` installs on a new socket, one per lifecycle event and one for "error". */
  function InstalledListeners(): map<string, seq<Handler>> {
    map[ConnectEvent := [LogConnected], DisconnectEvent := [LogDisconnected],
        ConnectErrorEvent := [CountConnectError], ServerError.Name() := [LogServerError]]
  }

  /** An abstract socket.io socket. */
  class Socket {
    const token: string
    var connected: bool
    var closed: bool
    var listeners: map<string, seq<Handler>>
    var sent: seq<ClientEvent>

    /** `io(url, { auth: { token } })`: a socket that is still connecting. */
    constructor (token: string)
      ensures this.token == token && !connected && !closed && listeners == map[] && sent == []
    {
      this.token := token;
      connected, closed := false, false;
      listeners, sent := map[], [];
    }

    /** The listeners registered for `event`, in registration order. */
    function Listeners(event: string): seq<Handler>
      reads this
    {
      if event in listeners then listeners[event] else []
    }

    /** `socket.on(event, h)`: appends `h` to the listeners of `event`. */
    method On(event: string, h: Handler)
      modifies this
      ensures listeners == old(listeners)[event := old(Listeners(event)) + [h]]
      ensures connected == old(connected) && closed == old(closed) && sent == old(sent)
    {
      listeners := listeners[event := Listeners(event) + [h]];
    }

    /** `socket.off(event, h)`: drops the first registration of `h` for `event`. */
    method Off(event: string, h: Handler)
      modifies this
      ensures Listeners(event) == RemoveFirst(old(Listeners(event)), h)
      ensures forall e :: e != event ==> Listeners(e) == old(Listeners(e))
      ensures connected == old(connected) && closed == old(closed) && sent == old(sent)
    {
      if event in listeners {
        var rest := RemoveFirst(listeners[event], h);
        listeners := if rest == [] then listeners - {event} else listeners[event := rest];
      }
    }

    /** `socket.off(event)`: drops every listener of `event`. */
    method OffAll(event: string)
      modifies this
      ensures Listeners(event) == []
      ensures forall e :: e != event ==> Listeners(e) == old(Listeners(e))
      ensures connected == old(connected) && closed == old(closed) && sent == old(sent)
    {
      listeners := listeners - {event};
    }

    /** `socket.removeAllListeners()`. */
    method RemoveAllListeners()
      modifies this
      ensures listeners == map[]
      ensures connected == old(connected) && closed == old(closed) && sent == old(sent)
    {
      listeners := map[];
    }

    /** `socket.disconnect()`: closes the socket for good. */
    method Close()
      modifies this
      ensures closed && !connected
      ensures listeners == old(listeners) && sent == old(sent)
    {
      closed, connected := true, false;
    }

    /** `socket.emit(e)` on an open connection: the event goes out. */
    method Send(e: ClientEvent)
      modifies this
      ensures sent == old(sent) + [e]
      ensures connected == old(connected) && closed == old(closed) && listeners == old(listeners)
    {
      sent := sent + [e];
    }
  }

  /** The application's one realtime client. */
  class SocketClient {
    var socket: Socket?
    var reconnectAttempts: nat

    /** A client with no socket. */
    constructor ()
      ensures socket == null && reconnectAttempts == 0
    {
      socket, reconnectAttempts := null, 0;
    }

    /** `getConnectionState()`. */
    function ConnectionState(): (r: ConnectionState)
      reads this, socket
      ensures r == Disconnected <==> socket == null
      ensures r == Connected <==> socket != null && socket.connected
      ensures r == Connecting <==> socket != null && !socket.connected
    {
      if socket == null then Disconnected
      else if socket.connected then Connected
      else Connecting
    }

    /** `isConnected()`: true exactly in the connected state. */
    function IsConnected(): (r: bool)
      reads this, socket
      ensures r <==> ConnectionState() == Connected
    {
      socket != null && socket.connected
    }

    /** The listeners of `event` on the current socket; none without a socket. */
    function Listeners(event: ServerEvent): seq<Handler>
      reads this, socket
    {
      if socket == null then [] else socket.Listeners(event.Name())
    }

    /**
     * `connect(token)`: keeps a connected socket; otherwise opens a new one with the
     * four lifecycle listeners. A present but unconnected socket is replaced as it is,
     * neither closed nor stripped of its listeners. The attempt counter is left alone.
     */
    method Connect(token: string) returns (s: Socket)
      modifies this
      ensures old(socket) != null && old(socket.connected) ==> s == old(socket) && socket == s
      ensures !(old(socket) != null && old(socket.connected)) ==>
        && fresh(s) && socket == s && s.token == token
        && !s.connected && !s.closed && s.listeners == InstalledListeners() && s.sent == []
      ensures old(socket) != null ==> unchanged(old(socket))
      ensures reconnectAttempts == old(reconnectAttempts)
    {
      if socket != null && socket.connected {
        return socket;
      }
      s := new Socket(token);
      s.On(ConnectEvent, LogConnected);
      s.On(DisconnectEvent, LogDisconnected);
      s.On(ConnectErrorEvent, CountConnectError);
      s.On(ServerError.Name(), LogServerError);
      assert forall h: Handler :: [] + [h] == [h];
      socket := s;
    }

    /** socket.io reports that `s` connected; its "connect" listener resets the counter. */
    method SocketConnected(s: Socket)
      requires !s.closed
      modifies this, s
      ensures s.connected && !s.closed && s.listeners == old(s.listeners) && s.sent == old(s.sent)
      ensures socket == old(socket)
      ensures reconnectAttempts == if LogConnected in old(s.Listeners(ConnectEvent)) then 0 else old(reconnectAttempts)
    {
      s.connected := true;
      if LogConnected in s.Listeners(ConnectEvent) {
        reconnectAttempts := 0;
      }
    }

    /**
     * socket.io reports a failed attempt on `s`; its "connect_error" listener raises the
     * counter by one and reports whether the limit is reached. Nothing is thrown.
     */
    method SocketConnectError(s: Socket) returns (maxReached: bool)
      modifies this
      ensures socket == old(socket)
      ensures CountConnectError in s.Listeners(ConnectErrorEvent) ==>
        reconnectAttempts == old(reconnectAttempts) + 1 && maxReached == (reconnectAttempts >= MaxReconnectAttempts)
      ensures CountConnectError !in s.Listeners(ConnectErrorEvent) ==>
        reconnectAttempts == old(reconnectAttempts) && !maxReached
    {
      maxReached := false;
      if CountConnectError in s.Listeners(ConnectErrorEvent) {
        reconnectAttempts := reconnectAttempts + 1;
        maxReached := reconnectAttempts >= MaxReconnectAttempts;
      }
    }

    /** socket.io reports that `s` dropped; its "disconnect" listener only logs. */
    method SocketDropped(s: Socket)
      modifies s
      ensures !s.connected && s.closed == old(s.closed) && s.listeners == old(s.listeners) && s.sent == old(s.sent)
    {
      s.connected := false;
    }

    /** `disconnect()`: strips, closes and forgets the socket and resets the counter; no-op without one. */
    method Disconnect()
      modifies this, socket
      ensures socket == null
      ensures old(socket) == null ==> reconnectAttempts == old(reconnectAttempts)
      ensures old(socket) != null ==>
        && reconnectAttempts == 0
        && old(socket).listeners == map[] && old(socket).closed && !old(socket).connected
        && old(socket).sent == old(socket.sent)
    {
      if socket != null {
        socket.RemoveAllListeners();
        socket.Close();
        socket := null;
        reconnectAttempts := 0;
      }
    }

    /** `emit(e)`: sends only while connected; otherwise nothing changes. */
    method Emit(e: ClientEvent)
      modifies socket
      ensures IsConnected() ==> socket.sent == old(socket.sent) + [e]
      ensures !IsConnected() ==> socket == null || socket.sent == old(socket.sent)
      ensures socket != null ==>
        socket.connected == old(socket.connected) && socket.closed == old(socket.closed) && socket.listeners == old(socket.listeners)
    {
      if socket != null && socket.connected {
        socket.Send(e);
      }
    }

    /** `on(event, h)`: registers on the current socket; nothing without one. */
    method On(event: ServerEvent, h: Handler)
      modifies socket
      ensures Listeners(event) == if socket == null then [] else old(Listeners(event)) + [h]
      ensures forall e :: e != event ==> Listeners(e) == old(Listeners(e))
      ensures socket != null ==> forall name :: name != event.Name() ==> socket.Listeners(name) == old(socket.Listeners(name))
      ensures socket != null ==>
        socket.connected == old(socket.connected) && socket.closed == old(socket.closed) && socket.sent == old(socket.sent)
    {
      if socket != null {
        socket.On(event.Name(), h);
        NamesDistinct();
      }
    }

    /** `off(event, h)` drops the first registration of `h`; `off(event)` drops them all. */
    method Off(event: ServerEvent, h: Option<Handler>)
      modifies socket
      ensures socket == null ==> Listeners(event) == []
      ensures socket != null && h.Some? ==> Listeners(event) == RemoveFirst(old(Listeners(event)), h.value)
      ensures socket != null && h.None? ==> Listeners(event) == []
      ensures forall e :: e != event ==> Listeners(e) == old(Listeners(e))
      ensures socket != null ==> forall name :: name != event.Name() ==> socket.Listeners(name) == old(socket.Listeners(name))
      ensures socket != null ==>
        socket.connected == old(socket.connected) && socket.closed == old(socket.closed) && socket.sent == old(socket.sent)
    {
      if socket != null {
        NamesDistinct();
        if h.Some? {
          socket.Off(event.Name(), h.value);
        } else {
          socket.OffAll(event.Name());
        }
      }
    }
  }

  /** Different server events have different wire names. */
  lemma NamesDistinct()
    ensures forall a: ServerEvent, b: ServerEvent :: a != b ==> a.Name() != b.Name()
  {
  }
}
