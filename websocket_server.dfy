/**
 * The Python server's per-connection handler (handle_client): the client's
 * id, the file list it is sent first, the reply to every message, and its
 * membership in `connected_clients` while the handler runs.
 *
 * A handler is a coroutine; its three stages are methods here: `Accept`
 * (the code before the message loop), `Receive` (one turn of the loop) and
 * `Finish` (the `finally` block). Handlers of different clients may
 * interleave between these steps, as asyncio lets them. json.loads and
 * json.dumps are the constant functions `loads` and `dumps`; clock
 * readings are string inputs.
 */
module WebSocketServer {
  import opened Wrappers
  import opened Json
  import opened ImageFiles

  /** The number a string of decimal digits denotes, most significant digit first. */
  function DigitsValue(digits: string): nat {
    if digits == [] then 0
    else
      var d := digits[|digits| - 1] as int - '0' as int;
      DigitsValue(digits[..|digits| - 1]) * 10 + (if 0 <= d <= 9 then d else 0)
  }

  /** A port number in decimal, as an f-string prints an `int`: digits only, no leading zero, denoting `n`. */
  function Decimal(n: nat): (digits: string)
    ensures digits != []
    ensures forall i :: 0 <= i < |digits| ==> '0' <= digits[i] <= '9'
    ensures digits[0] == '0' ==> digits == "0"
    ensures DigitsValue(digits) == n
  {
    if n < 10 then [(n + '0' as int) as char]
    else
      var init, last := Decimal(n / 10), [(n % 10 + '0' as int) as char];
      assert (init + last)[..|init + last| - 1] == init;
      init + last
  }

  /** The client id: the peer's host and port, joined by a colon. */
  function ClientId(host: string, port: nat): (id: string)
    ensures |id| > |host| + 1 && id[..|host| + 1] == host + ":"
    ensures forall i :: |host| + 1 <= i < |id| ==> '0' <= id[i] <= '9'
    ensures DigitsValue(id[|host| + 1..]) == port
  {
    assert (host + ":" + Decimal(port))[|host| + 1..] == Decimal(port);
    host + ":" + Decimal(port)
  }

  /** Two connections from one host get different ids exactly when their ports differ. */
  lemma ClientIdDeterminesPort(host: string, p: nat, q: nat)
    ensures ClientId(host, p) == ClientId(host, q) <==> p == q
  {
    if ClientId(host, p) == ClientId(host, q) {
      assert ClientId(host, p)[|host| + 1..] == ClientId(host, q)[|host| + 1..];
    }
  }

  /** The first message of every connection: the image list, which the receiver reads back as exactly `files`. */
  function FileListMessage(files: seq<string>, now: string): (m: Json)
    ensures m.JObj? && m.fields.Keys == {"type", "files", "timestamp"}
    ensures m.fields["type"] == JStr("file_list") && m.fields["timestamp"] == JStr(now)
    ensures Strings(m.fields["files"]) == Some(files)
  {
    StringsOfStrArray(files);
    JObj(map["type" := JStr("file_list"), "files" := StrArray(files), "timestamp" := JStr(now)])
  }

  /** A reply frame: a JSON envelope to be serialised, or plain text. */
  datatype Reply = JsonReply(envelope: Json) | TextReply(text: string)

  /**
   * The reply to one message: an `echo` envelope carrying the decoded value
   * when the message is JSON, and otherwise a plain-text echo of the message
   * naming the client. `decoded` is what json.loads made of `message`.
   */
  function EchoReply(decoded: Option<Json>, message: string, clientId: string, now: string, clock: string): (r: Reply)
    ensures r.JsonReply? <==> decoded.Some?
    ensures r.JsonReply? ==>
      && r.envelope.JObj?
      && r.envelope.fields.Keys == {"type", "original_message", "timestamp", "client_id"}
      && r.envelope.fields["type"] == JStr("echo")
      && r.envelope.fields["original_message"] == decoded.value
      && r.envelope.fields["client_id"] == JStr(clientId)
    ensures r.TextReply? ==>
      var prefix := "Echo: " + message + " (from " + clientId;
      |prefix| <= |r.text| && r.text[..|prefix|] == prefix
  {
    match decoded
    case Some(data) =>
      JsonReply(JObj(map["type" := JStr("echo"), "original_message" := data,
                         "timestamp" := JStr(now), "client_id" := JStr(clientId)]))
    case None =>
      TextReply("Echo: " + message + " (from " + clientId + " at " + clock + ")")
  }

  /** Nothing is lost in an echo: each reply determines the value or text it answers, given the client. */
  lemma EchoReplyDeterminesInput(d1: Option<Json>, m1: string, d2: Option<Json>, m2: string,
                                 clientId: string, now1: string, now2: string, clock: string)
    requires EchoReply(d1, m1, clientId, now1, clock) == EchoReply(d2, m2, clientId, now2, clock)
    ensures d1 == d2
    ensures d1.None? ==> m1 == m2
  {
    var r := EchoReply(d1, m1, clientId, now1, clock);
    if d1.None? {
      var tail := " (from " + clientId + " at " + clock + ")";
      assert r.text == "Echo: " + m1 + tail && r.text == "Echo: " + m2 + tail;
      assert |m1| == |m2|;
      assert m1 == r.text[6..6 + |m1|];
      assert m2 == r.text[6..6 + |m2|];
    }
  }

  type Socket = nat

  class Server {
    const loads: string -> Option<Json>
    const dumps: Json -> string

    var connectedClients: set<Socket>
    /** The handlers now running, each with the client id it computed. */
    var handlers: map<Socket, string>
    /** Every frame the handlers sent, with its destination, in order. */
    var outbox: seq<(Socket, string)>

    /** A client is in `connected_clients` exactly while its handler runs. */
    ghost predicate Valid()
      reads this
    {
      connectedClients == handlers.Keys
    }

    constructor (loads: string -> Option<Json>, dumps: Json -> string)
      ensures Valid()
      ensures this.loads == loads && this.dumps == dumps
      ensures connectedClients == {} && handlers == map[] && outbox == []
    {
      this.loads := loads;
      this.dumps := dumps;
      connectedClients := {};
      handlers := map[];
      outbox := [];
    }

    /** The handler's start: the client joins the set and is sent the image list first. */
    method Accept(ws: Socket, host: string, port: nat, picsExists: bool, listing: seq<string>, now: string)
      requires Valid() && ws !in handlers
      modifies this
      ensures Valid()
      ensures connectedClients == old(connectedClients) + {ws}
      ensures handlers == old(handlers)[ws := ClientId(host, port)]
      ensures outbox == old(outbox) + [(ws, dumps(FileListMessage(ImageFilesOf(picsExists, listing), now)))]
    {
      var clientId := ClientId(host, port);
      connectedClients := connectedClients + {ws};
      handlers := handlers[ws := clientId];
      var imageFiles := GetImageFiles(picsExists, listing);
      outbox := outbox + [(ws, dumps(FileListMessage(imageFiles, now)))];
    }

    /** One turn of the message loop: exactly one reply, to the sender; membership is untouched. */
    method Receive(ws: Socket, message: string, now: string, clock: string)
      requires Valid() && ws in handlers
      modifies this`outbox
      ensures Valid()
      ensures outbox == old(outbox) + [(ws, Frame(EchoReply(loads(message), message, handlers[ws], now, clock)))]
    {
      var reply := EchoReply(loads(message), message, handlers[ws], now, clock);
      outbox := outbox + [(ws, Frame(reply))];
    }

    /** The `finally` block, whichever way the loop ended: the client leaves the set; discarding twice is harmless. */
    method Finish(ws: Socket)
      requires Valid()
      modifies this`connectedClients, this`handlers
      ensures Valid()
      ensures connectedClients == old(connectedClients) - {ws} && ws !in connectedClients
      ensures handlers == old(handlers) - {ws}
      ensures ws !in old(connectedClients) ==> connectedClients == old(connectedClients)
    {
      connectedClients := connectedClients - {ws};
      handlers := handlers - {ws};
    }

    /** The text a reply goes out as. */
    function Frame(reply: Reply): string
      reads this
    {
      match reply
      case JsonReply(envelope) => dumps(envelope)
      case TextReply(text) => text
    }
  }

  /** Two clients interleaved: each is in the set while its handler runs and gone after it ends. */
  method TwoClients(loads: string -> Option<Json>, dumps: Json -> string, port1: nat, port2: nat, listing: seq<string>,
                    host1: string, host2: string)
  {
    var s := new Server(loads, dumps);
    s.Accept(1, host1, port1, true, listing, "t0");
    s.Accept(2, host2, port2, false, listing, "t1");
    assert s.connectedClients == {1, 2};
    s.Receive(1, "hello", "t2", "12:00:00");
    s.Finish(2);
    assert s.connectedClients == {1};
    s.Finish(2);
    assert s.connectedClients == {1};
    s.Finish(1);
    assert s.connectedClients == {};
  }
}
