# Broadcast hub of the local-network chat server

This project models the in-memory core of a small chat server (`server.js`).
The server keeps every message it has seen in one history array, and it knows
the WebSocket clients that are connected, each with a ready state. Three
handlers change this state, and each runs to completion before the next:

- **upload notification** (`POST /upload`): without a file it answers 400.
  With a file it builds a `file` message from the upload record, appends it to
  the history, and sends its JSON text to every client whose ready state is
  OPEN. It then answers 200;
- **connection**: it sends the new client every stored message, in order, each
  re-serialised. It then sends one `text` welcome message;
- **inbound message**: it parses the received string, appends the parsed value
  to the history, and sends the received string unchanged to every OPEN
  client, the sender included.

The model has three modules:

- `Json` (json.dfy) holds JSON values and the codec the server relies on. It
  also holds the two messages the server builds itself: the `file`
  notification and the welcome;
- `HubSpec` (hub_spec.dfy) is the hub as a state machine over values:
  `Step` for one handler and `Run` for a series of handlers. Its lemmas state
  what a step and a run guarantee;
- `Server` (hub.dfy) holds the class `Hub`. It has the fields the handlers
  update in place (`history`, `clients`), the handlers as methods with the
  source's loops, and a proof that each method takes exactly the matching
  `HubSpec.Step`.

Each client is a ready flag (`open`) and an `outbox`. The outbox is the
sequence of strings sent to that client so far. `JSON.parse` and
`JSON.stringify` are left abstract. A `Codec` value carries a partial `parse`
(`None` where the source throws) and a total `stringify`, and the hub is
built with one. Properties of them are stated as preconditions where a lemma
needs them: `RoundTripsFileMessages` (parsing the text of a `file` message
gives that message back) for the lemmas that relate broadcast payloads to
history entries, and, for the two scenario lemmas, a string `hi` that parses
to the `text` message with content "hi".

## Model

| member | source | states |
|---|---|---|
| Json.LookupFindsFirst | server.js:41-47 | reading a key of an object whose keys before it differ from it yields that member's value (property access on the messages the server builds) |
| Json.FileMessage | server.js:41-47 | the upload message is an object with exactly five members: `type` is "file", and `filename`, `originalname`, `mimetype` and `size` equal the upload record's fields |
| Json.TextMessageFields | server.js:71 | a text message is an object with exactly two members, `type` "text" and the given `content` |
| Json.Welcome | server.js:71 | the welcome is an object with exactly two members: `type` is "text" and `content` is "Welcome to the WebSocket server!" |
| HubSpec.Initial | server.js:32 | the hub starts with an empty history and no clients |
| HubSpec.Broadcast | server.js:53-57 | the fan-out keeps the same set of clients; every OPEN client gets the payload exactly once, at the end of its outbox; every other client is unchanged |
| HubSpec.Replay | server.js:66-68 | the replay has one payload per history entry, and payload i is the serialisation of entry i (history order) |
| HubSpec.Step | server.js:35-89 | the transition each handler takes (upload, connection with `Joined`, inbound message, and the transport closing a socket), which the `Hub` methods are proved to take; the history only grows, by at most one entry at its end, and no client leaves the map |
| HubSpec.UploadResponse | server.js:36-38 | the upload answers 400 when no file came and 200 when one did |
| HubSpec.StepHistory | server.js:50 | each handler appends at most one message, at the end, and keeps every earlier entry; the set of clients only grows |
| HubSpec.StepDelivery | server.js:53-57 | an OPEN client gets exactly the payload the handler broadcasts, appended once; a client that is not OPEN gets nothing; no event but closing that client touches its ready flag |
| HubSpec.FailuresChangeNothing | server.js:36-38 | an upload without a file (status 400) and an inbound string that does not parse leave the history and every outbox unchanged |
| HubSpec.UploadPublishesFileMessage | server.js:41-59 | an upload with a file appends a `file` message carrying the record's fields, sends its serialisation to every OPEN client, and answers 200 |
| HubSpec.ReceiveStoresParsedSendsRaw | server.js:73-88 | an inbound message stores the parsed value, while the sender (when OPEN) gets the raw string back exactly as it arrived |
| HubSpec.ConnectReplays | server.js:62-71 | a joining client gets a fresh id, is OPEN, and its outbox is the history's serialisations in order followed by exactly one welcome; no other client and not the history changes |
| HubSpec.RunHistory | server.js:50 | over any series of handlers, history only grows: the old history stays a prefix, and what is appended is each handler's message in handler order |
| HubSpec.ClosedStaysClosed | server.js:54 | a client that has left the OPEN state stays out of it and is sent nothing more, over any series of events |
| HubSpec.RunDelivery | server.js:53-57 | a client that is OPEN and is not closed across a series of handlers receives exactly the broadcast payloads, in handler order, after what it already had |
| HubSpec.DeliveredMatchesAppended | server.js:78-86 | the k-th payload broadcast by a series of handlers parses to the k-th message that series appends to the history (the raw string for inbound messages, the file message's text for uploads) |
| HubSpec.JoinThenRun | server.js:62-88 | a client that joins and stays OPEN receives the history at join time, the welcome, then every later broadcast in order, each matching the history entry appended after it joined |
| HubSpec.FirstClientSaysHi | server.js:62-88 | a client joining an empty hub and sending "hi" has received the welcome and then its own "hi" |
| HubSpec.TwoClientsScenario | server.js:35-89 | two clients, "hi" from the first, then an upload: the second gets "hi" once in its replay before its welcome, and both get one file notification |
| Server.Hub.constructor | server.js:32 | the hub starts empty, with the given codec |
| Server.Hub.SendToOpen | server.js:53-57 | the `forEach` over the clients leaves them equal to `Broadcast` of the old clients, whatever order it visits them in; the history is unchanged |
| Server.Hub.Upload | server.js:35-60 | takes the upload step: no file gives 400 with nothing changed; a file appends its `file` message, broadcasts its serialisation, and gives 200 |
| Server.Hub.Connect | server.js:62-71 | the replay loop and the welcome leave the new client's outbox equal to `Replay` of the history plus the welcome; the history and other clients are unchanged |
| Server.Hub.Receive | server.js:73-89 | `ok` is whether the string parses; if it does not, nothing changes; if it does, the parsed value is appended and the raw string is broadcast |
| Server.Hub.Close | server.js:54 | the transport takes one client out of the OPEN state, which the broadcast checks; nothing else changes |

## Left out

- Static file serving of `public/` and `/uploads` (server.js:29, server.js:93): plain I/O passthrough.
- Multer disk storage and the unique file name (server.js:10-22): a disk write using the clock and a random number. The stored name is an input, `UploadInfo.filename`.
- `getLocalIp`, `server.listen` and console logging (server.js:63, server.js:75, server.js:96-113): operating-system calls and cosmetic output.
- `JSON.parse` and `JSON.stringify`: they are the abstract `Codec`. No claim is made that replaying a received message gives back the raw string that was broadcast. The two differ whenever `stringify` of the parsed value is not byte-for-byte the received text.
- JSON numbers are modelled as exact reals, not IEEE doubles.
- Server.Hub.Receive: a string that does not parse makes `JSON.parse` throw inside the `message` listener. Nothing catches it, so the running process would end. The model records this as `ok == false` with the state unchanged. It does not model the process ending.
- The WebSocket handshake, socket errors, and the `ws` library's own adding and removing of entries in `wss.clients`. A client's readiness is a flag that starts true when it joins and that the environment can only clear, through `Close`, as a socket that starts closing never becomes OPEN again. A closed client stays in the map with its flag false, which the broadcast skips exactly as a non-OPEN socket is skipped.
- Server.Hub.Receive: `requires from in clients` reflects that the handler is attached only to a connected socket. The sender affects nothing else, since the broadcast goes to every OPEN client.
- Client identity: each socket in the source is a new object. The model gives each joining client the next number, so a join never replaces an existing client.
- Concurrency: Node runs each handler to completion on one thread, so each handler is one method with no interleaving.
