# Image gallery: connection hook, gallery component and echo server

A Dafny model of the sequential core of a small image-rating gallery:

- **The browser's connection hook** (`parser/src/hooks/useWebSocket.js`), as the class
  `UseWebSocket.WebSocketHook`. Its fields are the state the hook holds:
  - the socket's own readyState (`socket`, `None` until the effect has run);
  - the readyState the hook shows;
  - the status label;
  - `lastMessage` and the append-only message log;
  - every text handed to the socket's `send`;
  - the reconnect timers that are still pending.
  
  Each socket event and each hook function is a method: open, message, close, error, the 3 s timer, cleanup, `sendMessage`, `sendJsonMessage`, `clearMessages` and `reconnect`. `Valid()` is the invariant all of them keep. It says the hook's readyState agrees with the socket's and lags only while the socket is closing. It also says that a pending timer implies the socket is CLOSED. The model runs the effect once, creating one socket, so in the model the timer's guard always holds. Then all the timer does is relabel the status "Reconnecting...". Nothing reconnects.
- **The gallery component** (`parser/src/components/Dashboard.js`). Pure functions build the item list from a `file_list` message and decide the rating submission. The class `Dashboard.Dashboard` holds the component's state (selected image, rating, comment, items) and its handlers. The send function is abstract: the class records, in order, every object it passes to it.
- **The server's handler** (`py_server/websocket_server.py`). `get_image_files` is a loop method proved against the function `ImageFilesOf`. That function's properties are lemmas: case-insensitive extension test, sorted, sub-multiset of the listing, idempotent. The reply rule is the function `EchoReply`. The class `WebSocketServer.Server` holds `connected_clients` and the running handlers. Its invariant is that a client is in the set exactly while its handler runs.
- **`Protocol`**:
  - the server's first message becomes the gallery;
  - a submitted rating goes out stamped;
  - echoes never alter the gallery.

JSON decoding and encoding are abstract: `JSON.parse`, `JSON.stringify`, `json.loads` and `json.dumps` are constant function fields given to the constructors. Clock readings (ISO timestamps, the `%H:%M:%S` clock) are string inputs. The socket, the file system listing and whether the `pics` directory exists are inputs too. The WebSocket readyState numbers and what `close()` does to them follow the WHATWG WebSockets Standard.

Four facts about the code shape the model:
- The greeting sent on open goes straight to `ws.send`, so it carries no `client_type`.
- The reconnect timer only relabels the status.
- `reconnect()` only closes the socket.
- The hook has no idle or disabled state: the address is never empty (`WsUrl`), so the effect always connects.

## Model

| member | source | states |
|---|---|---|
| UseWebSocket.GetConnectionStatus | parser/src/hooks/useWebSocket.js:16-29 | total; CONNECTING, OPEN, CLOSING, CLOSED map to "Connecting...", "Connected", "Disconnecting...", "Disconnected" and each label only to its state; every other number gives "Unknown" |
| UseWebSocket.WsUrl | parser/src/hooks/useWebSocket.js:5 | the caller's URL when given and non-empty, else port 8765 on the page's host; never empty, so the guard at line 32 never returns early |
| UseWebSocket.Inbound | parser/src/hooks/useWebSocket.js:57-67 | the parsed value when the data parses; otherwise an object of type "text" whose content is the raw data verbatim |
| UseWebSocket.InboundKeepsUnparsedText | parser/src/hooks/useWebSocket.js:60-66 | no data is dropped: two different unparsable texts are recorded as different values |
| UseWebSocket.ConnectionMessage | parser/src/hooks/useWebSocket.js:46-50 | the greeting is an object with exactly the keys `type`, `message` and `timestamp`; its type is "connection" and its timestamp the open time |
| UseWebSocket.GreetingIsNotStamped | parser/src/hooks/useWebSocket.js:46-51 | the greeting never equals an object sendJsonMessage sends, which always has a `client_type` |
| UseWebSocket.Stamp | parser/src/hooks/useWebSocket.js:118-123 | the outbound object keeps every caller field except `timestamp` and `client_type`; those two are always overwritten with the send time and "react" |
| UseWebSocket.Wire | parser/src/hooks/useWebSocket.js:107 | a string message goes out verbatim, without quoting; any other value goes out as its serialisation |
| UseWebSocket.WebSocketHook.constructor | parser/src/hooks/useWebSocket.js:6-13 | initially there is no socket, readyState is CONNECTING, the status is "Connecting...", the log is empty and `lastMessage` is null |
| UseWebSocket.WebSocketHook.Mount | parser/src/hooks/useWebSocket.js:31-38 | the effect creates one connecting socket on `WsUrl`; the hook state is unchanged |
| UseWebSocket.WebSocketHook.OnOpen | parser/src/hooks/useWebSocket.js:40-52 | readyState OPEN and status "Connected"; exactly one text, the `connection` greeting, is transmitted |
| UseWebSocket.WebSocketHook.OnMessage | parser/src/hooks/useWebSocket.js:54-75 | `lastMessage` is the decoded-or-wrapped value; the log grows by exactly that one entry and its earlier entries are unchanged |
| UseWebSocket.WebSocketHook.OnClose | parser/src/hooks/useWebSocket.js:77-89 | readyState CLOSED and status "Disconnected"; one more reconnect timer is pending; no new socket |
| UseWebSocket.WebSocketHook.OnReconnectTimer | parser/src/hooks/useWebSocket.js:83-88 | only the status changes, to "Reconnecting...", and only if the socket is CLOSED (which, in every valid state with a pending timer, it is) |
| UseWebSocket.WebSocketHook.OnError | parser/src/hooks/useWebSocket.js:91-94 | only the status changes, to "Error occurred"; readyState is untouched |
| UseWebSocket.WebSocketHook.Cleanup | parser/src/hooks/useWebSocket.js:97-101 | an open socket starts closing; a socket in any other state is left as it is |
| UseWebSocket.WebSocketHook.Reconnect | parser/src/hooks/useWebSocket.js:133-137 | the current socket, if any, is asked to close; nothing is opened |
| UseWebSocket.WebSocketHook.SendMessage | parser/src/hooks/useWebSocket.js:105-115 | true and exactly one transmitted text iff the socket is OPEN, otherwise false and nothing transmitted; strings go verbatim, other values serialised |
| UseWebSocket.WebSocketHook.SendJsonMessage | parser/src/hooks/useWebSocket.js:118-125 | transmits the stamped object iff the socket is OPEN; returns what sendMessage returns |
| UseWebSocket.WebSocketHook.ClearMessages | parser/src/hooks/useWebSocket.js:128-130 | the log is empty and `lastMessage` is kept |
| UseWebSocket.WebSocketHook.FlagsExclusive | parser/src/hooks/useWebSocket.js:149-151 | at most one of isConnected, isConnecting and isDisconnected holds; in every valid state exactly one does |
| Dashboard.ToItems | parser/src/components/Dashboard.js:29-33 | one item per file, in order, with that filename and the locator `http://<host>:8766/pics/<filename>` |
| Dashboard.FilenamesOfItems | parser/src/components/Dashboard.js:29-33 | the items' filenames read back are exactly the message's list |
| Dashboard.ItemIdsAreOneToN | parser/src/components/Dashboard.js:29-30 | item ids are pairwise distinct and are exactly 1..n |
| Dashboard.FileListUpdate | parser/src/components/Dashboard.js:26-36 | a message that is not a truthy object typed "file_list" keeps the list; a file list replaces it with items numbered 1..n whose filenames are the list's names; a file list without a list of names is malformed |
| Dashboard.RatingSubmission | parser/src/components/Dashboard.js:50-58 | a message exists iff an image is selected and the rating is a positive number; it is typed "image_rating" and carries the image's filename, the rating and the comment |
| Dashboard.StatusColor | parser/src/components/Dashboard.js:65-68 | "success" iff connected, otherwise "default" |
| Dashboard.Dashboard.constructor | parser/src/components/Dashboard.js:20-23 | nothing selected, no items, rating 0, empty comment, nothing sent |
| Dashboard.Dashboard.OnLastMessage | parser/src/components/Dashboard.js:26-36 | a file list replaces the items wholesale; any other message, null included, leaves them unchanged |
| Dashboard.Dashboard.ImageClick | parser/src/components/Dashboard.js:38-42 | the image is selected, rating 0, comment empty |
| Dashboard.Dashboard.CloseDialog | parser/src/components/Dashboard.js:44-48 | nothing selected, rating 0, comment empty |
| Dashboard.Dashboard.SetRating | parser/src/components/Dashboard.js:163-166 | the rating becomes the widget's value, a star count or null |
| Dashboard.Dashboard.SetComment | parser/src/components/Dashboard.js:186-187 | the comment becomes the field's text |
| Dashboard.Dashboard.SubmitRatingUnwired | parser/src/App.js:26-30 | with no send function passed in, the call throws exactly when the gate is open, and nothing is sent or reset |
| Dashboard.Dashboard.SubmitRating | parser/src/components/Dashboard.js:50-63 | when the gate is open: exactly one `image_rating` object sent, then nothing selected, rating 0, comment empty; when shut (no image, rating 0 or null): nothing sent and nothing changed |
| NameOrder.Le | py_server/websocket_server.py:45 | `str` order: every prefix of a name, the name itself included, precedes it |
| NameOrder.Sort | py_server/websocket_server.py:45 | the sort returns the same names as its input, each as often, so the list keeps its length |
| NameOrder.SortSortsAndPermutes | py_server/websocket_server.py:45 | the sort returns an ascending permutation of its input |
| NameOrder.SortedPermutationIsUnique | py_server/websocket_server.py:45 | two sorted lists with the same elements are equal, so any sorting algorithm gives the same result as `sorted()` |
| NameOrder.SortOfSorted | py_server/websocket_server.py:45 | sorting a sorted list returns it unchanged |
| ImageFiles.ImageNameIgnoresCase | py_server/websocket_server.py:42 | a name, its lower-case form and its upper-case form all pass the extension test or all fail it |
| ImageFiles.IsImageName | py_server/websocket_server.py:42 | a passing name is at least four characters long, the length of the shortest extension |
| ImageFiles.AnyCaseExtensionPasses | py_server/websocket_server.py:38-42 | any stem followed by one of the seven extensions, in any mix of upper- and lower-case letters, passes the test |
| ImageFiles.Filter | py_server/websocket_server.py:41-43 | every collected name passes the test, and the collected names are a sub-multiset of the listing |
| ImageFiles.FilterMembership | py_server/websocket_server.py:41-43 | a name is collected iff it is in the listing and passes the test |
| ImageFiles.ImageFilesOf | py_server/websocket_server.py:32-45 | empty without the directory; every returned name passes the test, and the result is a sub-multiset of the listing |
| ImageFiles.ImageFilesProperties | py_server/websocket_server.py:32-45 | the result is empty without the directory; otherwise it is sorted, a sub-multiset of the listing, and holds a name iff the listing has it and its lower-cased form ends in one of the seven extensions |
| ImageFiles.ImageFilesIdempotent | py_server/websocket_server.py:41-45 | filtering and sorting the result again returns it unchanged |
| ImageFiles.GetImageFiles | py_server/websocket_server.py:32-45 | the loop and sort compute `ImageFilesOf`: sorted, and holding exactly the passing names of an existing directory |
| WebSocketServer.Decimal | py_server/websocket_server.py:50 | a port prints as a non-empty string of decimal digits, with no leading zero, whose value is the port |
| WebSocketServer.ClientId | py_server/websocket_server.py:50 | the client id is the host, a colon, then digits whose value is the port |
| WebSocketServer.ClientIdDeterminesPort | py_server/websocket_server.py:50 | two connections from one host get the same id iff their ports are equal |
| WebSocketServer.FileListMessage | py_server/websocket_server.py:57-62 | an object with exactly the keys `type`, `files` and `timestamp`, typed "file_list", whose `files` reads back as exactly the list of names |
| WebSocketServer.EchoReply | py_server/websocket_server.py:75-91 | a JSON reply iff the message decoded; the JSON reply is an `echo` object carrying the decoded value and the client id; the text reply starts with "Echo: " + message + " (from " + client id |
| WebSocketServer.EchoReplyDeterminesInput | py_server/websocket_server.py:78-90 | for one client, the reply determines the decoded value, and for a text reply the message |
| WebSocketServer.Server.constructor | py_server/websocket_server.py:29 | `connected_clients` starts empty, no handler runs, nothing sent |
| WebSocketServer.Server.Accept | py_server/websocket_server.py:48-64 | the client joins the set, its handler records its id, and the first frame sent to it is the `file_list` message of `get_image_files()` |
| WebSocketServer.Server.Receive | py_server/websocket_server.py:69-92 | exactly one reply frame, `EchoReply` of the decoded message, goes to the sender; the set is unchanged |
| WebSocketServer.Server.Finish | py_server/websocket_server.py:94-100 | on every exit path the client leaves the set and its handler ends; discarding an absent client changes nothing |
| Protocol.FileListReachesGallery | py_server/websocket_server.py:57-64 | the server's decoded first message replaces the gallery with `ToItems` of the server's list |
| Protocol.RatingOnTheWire | parser/src/components/Dashboard.js:50-60 | a submitted rating is sent with its fields kept, the send time as timestamp, and client type "react" |
| Protocol.EchoLeavesGallery | py_server/websocket_server.py:78-91 | neither kind of echo reply, as the client records it, is a file list, so echoes never change the gallery |

## Left out

- Rendering, layout, dialogs and styling of Dashboard (`parser/src/components/Dashboard.js:70-210`) are not modelled. The handlers the JSX wires (rating and comment change) are modelled.
- `RatingToast.js` and `NameEntry.js` are presentational and not modelled.
- `App.js` is modelled only through `Dashboard.Dashboard.SubmitRatingUnwired` (see Findings). Elsewhere Dashboard is given an abstract send function. `Protocol.RatingOnTheWire` shows what the hook's `sendJsonMessage` would make of a submission.
- The JSON grammar is not modelled. Decoders and encoders are abstract functions, and no round trip between them is assumed.
- Protocol.EchoLeavesGallery: requires that a text echo does not parse. That holds for real JSON, since it starts with "Echo:", but the abstract decoder cannot show it.
- UseWebSocket.WebSocketHook.OnMessage: a log entry is the pair of the recorded value and its arrival time. The source spreads the value into a new object with `id` and `received_at` (`parser/src/hooks/useWebSocket.js:70-74`), and the pair keeps data the source's entry loses:
  - a message's own `id` and `received_at` fields are overwritten;
  - a number, boolean or `null` contributes no field;
  - a string or an array becomes one field per index.
  The entry's `id` (`Date.now() + Math.random()`) is random and left out.
- Each handler call takes a single clock reading, even where the source reads the clock twice.
- UseWebSocket.WebSocketHook.OnMessage: takes text data only. Binary frames (Blob/ArrayBuffer) are not modelled.
- UseWebSocket.WebSocketHook.Mount: the effect runs once. Its dependency list is `[wsUrl]` (`parser/src/hooks/useWebSocket.js:102`), so a changed URL would run the cleanup and then the effect again, making a second socket. The old socket's `onclose` would then overwrite the state the new socket owns, and a pending timer's guard could read the new socket and fail. `Valid()` does not hold there. The single run is faithful to the app: `parser/src/App.js:20` passes a constant URL.
- React's scheduling is not modelled: batching, re-renders, and effects that run only when `lastMessage` changes identity. Each handler is one method call. Updates after unmount, which React discards, are still applied in the model.
- The browser's own event order is captured only as preconditions: open only on a connecting socket, close once per socket.
- Dashboard.FileListUpdate: a file list whose `files` is missing or not an array is `Malformed`, and the images are kept. In the source, `lastMessage.files.map` (`parser/src/components/Dashboard.js:29`) throws a TypeError inside the effect. A `files` array with a non-string element is also `Malformed`. The source would build an item whose `filename` is the raw value (line 31) and whose `path` is built from its string form (line 32). The server only sends a list of names.
- ImageFiles.IsImageName: lowers ASCII letters only. Python's `str.lower()` is Unicode-wide; the seven extensions are ASCII.
- `sorted()` is modelled by an insertion sort. `NameOrder.SortedPermutationIsUnique` shows that the result is the same.
- Not modelled: `broadcast_message`, the heartbeat loop, the HTTP image server, `main`, asyncio and the websockets library.
- Logging is not modelled.
- WebSocketServer.Server.Accept: records the file-list frame as sent even when the send fails; the source only logs that exception.
- WebSocketServer.Server.Receive: takes text frames only. A binary frame arrives as `bytes`. `json.loads` accepts it, and the text echo (`py_server/websocket_server.py:90`) would show it as `b'...'`.
- Server-side errors are not modelled separately. An exception other than `JSONDecodeError` ends the loop; the model covers it through `Finish`, which every path reaches.

## Findings

| source | as written | input that shows it | evidently intended | confidence | as-written member | corrected member |
|---|---|---|---|---|---|---|
| parser/src/App.js:26-30 | Dashboard is rendered without `sendJsonMessage`, which it takes as a prop (`parser/src/components/Dashboard.js:19`) and calls at line 60 | open an image, give it 4 stars, press submit: calling `undefined` throws before `handleCloseDialog` (line 61), so nothing is sent and the dialog stays open | App passes the hook's `sendJsonMessage`; the rating is sent once and the dialog resets | not executed; high, from reading the code | Dashboard.Dashboard.SubmitRatingUnwired (shown by Dashboard.UnwiredSubmitKeepsDialogOpen) | Dashboard.Dashboard.SubmitRating |
