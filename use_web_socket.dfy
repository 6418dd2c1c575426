/**
 * The browser client's connection hook (useWebSocket): one WebSocket, the
 * state the hook exposes to components, and the handlers the socket calls.
 *
 * The socket itself belongs to the browser. Its events (open, message,
 * close, error) and the firing of the 3 s timer are methods here, each
 * doing what the browser does to the socket and then what the handler does
 * to the hook's state. Clock readings are string inputs; JSON.parse and
 * JSON.stringify are the constant functions `parse` and `stringify`.
 */
module UseWebSocket {
  import opened Wrappers
  import opened Json

  // The readyState numbers of the WebSocket interface (WHATWG WebSockets Standard).
  const CONNECTING: int := 0
  const OPEN: int := 1
  const CLOSING: int := 2
  const CLOSED: int := 3

  /** Every label the hook ever shows as its connection status. */
  const StatusLabels: set<string> :=
    {"Connecting...", "Connected", "Disconnecting...", "Disconnected", "Unknown",
     "Reconnecting...", "Error occurred"}

  /** getConnectionStatus: the label of a readyState; total, and each of the four states has a label of its own. */
  function GetConnectionStatus(state: int): (status: string)
    ensures status in StatusLabels
    ensures status == "Connecting..." <==> state == CONNECTING
    ensures status == "Connected" <==> state == OPEN
    ensures status == "Disconnecting..." <==> state == CLOSING
    ensures status == "Disconnected" <==> state == CLOSED
    ensures status == "Unknown" <==> !(CONNECTING <= state <= CLOSED)
  {
    if state == CONNECTING then "Connecting..."
    else if state == OPEN then "Connected"
    else if state == CLOSING then "Disconnecting..."
    else if state == CLOSED then "Disconnected"
    else "Unknown"
  }

  /** The address the hook connects to: the caller's URL when it is given and non-empty, else port 8765 on the page's host. */
  function WsUrl(url: Option<string>, hostname: string): (r: string)
    ensures r != ""
    ensures url.Some? && url.value != "" ==> r == url.value
    ensures url.None? || url.value == "" ==> r == "ws://" + hostname + ":8765"
  {
    if url.Some? && url.value != "" then url.value else "ws://" + hostname + ":8765"
  }

  /** What `close()` does to a socket's readyState: an opening or open socket starts closing; otherwise nothing changes. */
  function AfterCloseCall(state: int): int {
    if state == CONNECTING || state == OPEN then CLOSING else state
  }

  /** The greeting sent as soon as the socket opens. It is sent directly, so it carries no `client_type`. */
  function ConnectionMessage(now: string): (m: Json)
    ensures m.JObj? && m.fields.Keys == {"type", "message", "timestamp"}
    ensures m.fields["type"] == JStr("connection") && m.fields["timestamp"] == JStr(now)
  {
    JObj(map["type" := JStr("connection"), "message" := JStr("React client connected"), "timestamp" := JStr(now)])
  }

  /**
   * The value `onmessage` records for inbound text `raw`: whatever it parses
   * to, or, when it does not parse, a `text` message holding `raw` verbatim.
   */
  function Inbound(parse: string -> Option<Json>, raw: string, now: string): (m: Json)
    ensures parse(raw).Some? ==> m == parse(raw).value
    ensures parse(raw).None? ==>
      && m.JObj?
      && m.fields.Keys == {"type", "content", "timestamp"}
      && m.fields["type"] == JStr("text")
      && m.fields["content"] == JStr(raw)
  {
    match parse(raw)
    case Some(v) => v
    case None => JObj(map["type" := JStr("text"), "content" := JStr(raw), "timestamp" := JStr(now)])
  }

  /** Nothing is dropped: text that does not parse is kept, so two different such texts are recorded differently. */
  lemma InboundKeepsUnparsedText(parse: string -> Option<Json>, raw1: string, raw2: string, now1: string, now2: string)
    requires parse(raw1).None? && parse(raw2).None?
    requires Inbound(parse, raw1, now1) == Inbound(parse, raw2, now2)
    ensures raw1 == raw2
  {
    assert Inbound(parse, raw1, now1).fields["content"] == JStr(raw1);
  }

  /**
   * The object sendJsonMessage sends for caller data `data`: every field of
   * the caller's except `timestamp` and `client_type`, which are always
   * overwritten with the send time and "react".
   */
  function Stamp(data: map<string, Json>, now: string): (m: map<string, Json>)
    ensures m.Keys == data.Keys + {"timestamp", "client_type"}
    ensures m["timestamp"] == JStr(now) && m["client_type"] == JStr("react")
    ensures forall k :: k in data && k != "timestamp" && k != "client_type" ==> m[k] == data[k]
  {
    data["timestamp" := JStr(now)]["client_type" := JStr("react")]
  }

  /** The text sendMessage hands to the socket: a string as it is, any other value serialised. */
  function Wire(stringify: Json -> string, message: Json): (text: string)
    ensures message.JStr? ==> text == message.s
    ensures !message.JStr? ==> text == stringify(message)
  {
    if message.JStr? then message.s else stringify(message)
  }

  /** The greeting is never what sendJsonMessage would send: that always carries a `client_type`. */
  lemma GreetingIsNotStamped(now: string, data: map<string, Json>, sentAt: string)
    ensures ConnectionMessage(now) != JObj(Stamp(data, sentAt))
  {
    assert "client_type" in Stamp(data, sentAt);
  }

  /** One entry of the message log: the recorded value and when it arrived. */
  datatype LogEntry = LogEntry(data: Json, receivedAt: string)

  /** Agreement between the socket's own readyState and the one the hook shows, which lags only while closing. */
  predicate Agrees(socketState: int, readyState: int) {
    && CONNECTING <= socketState <= CLOSED
    && (socketState == CONNECTING ==> readyState == CONNECTING)
    && (socketState == OPEN ==> readyState == OPEN)
    && (socketState == CLOSING ==> readyState == CONNECTING || readyState == OPEN)
    && (socketState == CLOSED ==> readyState == CLOSED)
  }

  class WebSocketHook {
    const parse: string -> Option<Json>
    const stringify: Json -> string

    /** `socketRef.current?.readyState`: `None` until the effect has created the socket. */
    var socket: Option<int>
    /** The address the socket was opened on. */
    var url: string
    var readyState: int
    var connectionStatus: string
    var lastMessage: Json
    var messages: seq<LogEntry>
    /** Every text handed to the socket's `send`, in order. */
    var transmitted: seq<string>
    /** Reconnect timers scheduled by `onclose` that have not fired yet. */
    var pendingTimers: nat

    ghost predicate Valid()
      reads this
    {
      && readyState in {CONNECTING, OPEN, CLOSED}
      && connectionStatus in StatusLabels
      && (socket.None? ==>
            readyState == CONNECTING && lastMessage == JNull && messages == [] &&
            transmitted == [] && pendingTimers == 0)
      && (socket.Some? ==> Agrees(socket.value, readyState))
      // The effect runs once (Mount), so every pending timer belongs to the one socket, which is closed.
      && (pendingTimers > 0 ==> socket == Some(CLOSED))
    }

    /** The first render: no socket yet, the state `useState` starts with. */
    constructor (parse: string -> Option<Json>, stringify: Json -> string)
      ensures Valid()
      ensures this.parse == parse && this.stringify == stringify
      ensures socket.None? && readyState == CONNECTING
      ensures connectionStatus == "Connecting..." && connectionStatus == GetConnectionStatus(readyState)
      ensures messages == [] && lastMessage == JNull
      ensures transmitted == [] && pendingTimers == 0
    {
      this.parse := parse;
      this.stringify := stringify;
      socket := None;
      url := "";
      readyState := CONNECTING;
      connectionStatus := "Connecting...";
      lastMessage := JNull;
      messages := [];
      transmitted := [];
      pendingTimers := 0;
    }

    /** The effect: a new socket, still connecting, on the resolved address. */
    method Mount(requested: Option<string>, hostname: string)
      requires Valid() && socket.None?
      modifies this
      ensures Valid()
      ensures socket == Some(CONNECTING) && url == WsUrl(requested, hostname)
      ensures readyState == old(readyState) && connectionStatus == old(connectionStatus)
      ensures lastMessage == old(lastMessage) && messages == old(messages)
      ensures transmitted == old(transmitted) && pendingTimers == old(pendingTimers)
    {
      url := WsUrl(requested, hostname);
      socket := Some(CONNECTING);
    }

    /** `onopen`: the hook shows OPEN and "Connected", and exactly one `connection` message goes out. */
    method OnOpen(now: string)
      requires Valid() && socket == Some(CONNECTING)
      modifies this
      ensures Valid()
      ensures socket == Some(OPEN) && readyState == OPEN
      ensures connectionStatus == GetConnectionStatus(OPEN) && connectionStatus == "Connected"
      ensures transmitted == old(transmitted) + [stringify(ConnectionMessage(now))]
      ensures url == old(url) && lastMessage == old(lastMessage) && messages == old(messages)
      ensures pendingTimers == old(pendingTimers)
    {
      socket := Some(OPEN);
      readyState := OPEN;
      connectionStatus := GetConnectionStatus(OPEN);
      transmitted := transmitted + [stringify(ConnectionMessage(now))];
    }

    /** `onmessage`: the recorded value becomes `lastMessage` and is appended to the log; earlier entries stay. */
    method OnMessage(raw: string, now: string)
      requires Valid() && socket.Some?
      modifies this
      ensures Valid()
      ensures lastMessage == Inbound(parse, raw, now)
      ensures messages == old(messages) + [LogEntry(Inbound(parse, raw, now), now)]
      ensures socket == old(socket) && url == old(url) && readyState == old(readyState)
      ensures connectionStatus == old(connectionStatus)
      ensures transmitted == old(transmitted) && pendingTimers == old(pendingTimers)
    {
      var data := Inbound(parse, raw, now);
      lastMessage := data;
      messages := messages + [LogEntry(data, now)];
    }

    /** `onclose`: CLOSED and "Disconnected", and one reconnect timer is scheduled; no new socket. */
    method OnClose()
      requires Valid() && socket.Some? && socket.value != CLOSED
      modifies this
      ensures Valid()
      ensures socket == Some(CLOSED) && readyState == CLOSED
      ensures connectionStatus == GetConnectionStatus(CLOSED) && connectionStatus == "Disconnected"
      ensures pendingTimers == old(pendingTimers) + 1
      ensures url == old(url) && lastMessage == old(lastMessage) && messages == old(messages)
      ensures transmitted == old(transmitted)
    {
      socket := Some(CLOSED);
      readyState := CLOSED;
      connectionStatus := GetConnectionStatus(CLOSED);
      pendingTimers := pendingTimers + 1;
    }

    /** `onerror`: only the status label changes. */
    method OnError()
      requires Valid() && socket.Some?
      modifies this`connectionStatus
      ensures Valid()
      ensures connectionStatus == "Error occurred"
    {
      connectionStatus := "Error occurred";
    }

    /**
     * The 3 s timer: relabels the status "Reconnecting..." when the current
     * socket is CLOSED, which, with the effect run only once, it always is.
     * Nothing reconnects.
     */
    method OnReconnectTimer()
      requires Valid() && pendingTimers > 0
      modifies this`connectionStatus, this`pendingTimers
      ensures Valid()
      ensures pendingTimers == old(pendingTimers) - 1
      ensures connectionStatus == (if socket == Some(CLOSED) then "Reconnecting..." else old(connectionStatus))
      ensures connectionStatus == "Reconnecting..."
    {
      pendingTimers := pendingTimers - 1;
      if socket == Some(CLOSED) {
        connectionStatus := "Reconnecting...";
      }
    }

    /** The effect's cleanup: an open socket is asked to close; a connecting one is left alone. */
    method Cleanup()
      requires Valid() && socket.Some?
      modifies this`socket
      ensures Valid()
      ensures socket == (if old(socket) == Some(OPEN) then Some(CLOSING) else old(socket))
    {
      if socket == Some(OPEN) {
        socket := Some(AfterCloseCall(OPEN));
      }
    }

    /** reconnect: asks the current socket, if any, to close (the close event follows later); it opens nothing. */
    method Reconnect()
      requires Valid()
      modifies this`socket
      ensures Valid()
      ensures socket == (if old(socket).Some? then Some(AfterCloseCall(old(socket).value)) else None)
    {
      if socket.Some? {
        socket := Some(AfterCloseCall(socket.value));
      }
    }

    /** sendMessage: transmits exactly one text and answers true iff the socket is OPEN; otherwise sends nothing. */
    method SendMessage(message: Json) returns (ok: bool)
      requires Valid()
      modifies this`transmitted
      ensures Valid()
      ensures ok <==> socket == Some(OPEN)
      ensures transmitted == if ok then old(transmitted) + [Wire(stringify, message)] else old(transmitted)
    {
      if socket == Some(OPEN) {
        transmitted := transmitted + [Wire(stringify, message)];
        ok := true;
      } else {
        ok := false;
      }
    }

    /** sendJsonMessage: sends the caller's object stamped with the time and client type; same answer as sendMessage. */
    method SendJsonMessage(data: map<string, Json>, now: string) returns (ok: bool)
      requires Valid()
      modifies this`transmitted
      ensures Valid()
      ensures ok <==> socket == Some(OPEN)
      ensures transmitted == if ok then old(transmitted) + [stringify(JObj(Stamp(data, now)))] else old(transmitted)
    {
      ok := SendMessage(JObj(Stamp(data, now)));
    }

    /** clearMessages: empties the log; `lastMessage` is kept. */
    method ClearMessages()
      requires Valid()
      modifies this`messages
      ensures Valid()
      ensures messages == [] && lastMessage == old(lastMessage)
    {
      messages := [];
    }

    predicate IsConnected()
      reads this
    {
      readyState == OPEN
    }

    predicate IsConnecting()
      reads this
    {
      readyState == CONNECTING
    }

    predicate IsDisconnected()
      reads this
    {
      readyState == CLOSED
    }

    /** At most one of the three flags holds; in every reachable state exactly one does. */
    lemma FlagsExclusive()
      ensures !(IsConnected() && IsConnecting())
      ensures !(IsConnected() && IsDisconnected())
      ensures !(IsConnecting() && IsDisconnected())
      ensures Valid() ==> IsConnected() || IsConnecting() || IsDisconnected()
    {
    }
  }

  /** A session: a send before open fails, open greets once, a drop stops sending. */
  method Session(parse: string -> Option<Json>, stringify: Json -> string)
  {
    var h := new WebSocketHook(parse, stringify);
    h.Mount(None, "gallery.local");
    var early := h.SendMessage(JStr("too early"));
    assert !early && h.transmitted == [];
    h.OnOpen("t0");
    h.OnClose();
    var late := h.SendJsonMessage(map[], "t1");
    assert !late && |h.transmitted| == 1;
  }

  /** Messages are logged in order and kept by the timer; clearing keeps the last one. */
  method LogSession(parse: string -> Option<Json>, stringify: Json -> string)
  {
    var h := new WebSocketHook(parse, stringify);
    h.Mount(None, "gallery.local");
    h.OnMessage("first", "t1");
    h.OnMessage("second", "t2");
    assert |h.messages| == 2 && h.messages[0].data == Inbound(parse, "first", "t1");
    h.OnClose();
    h.OnReconnectTimer();
    assert h.connectionStatus == "Reconnecting..." && h.IsDisconnected() && |h.messages| == 2;
    h.ClearMessages();
    assert h.messages == [] && h.lastMessage == Inbound(parse, "second", "t2");
  }
}
