# WebSocket chat handlers

A model of the connection-time behaviour of the two WebSocket handlers of a
small Spring chat server, with proofs of what they do.

- `MyChatHandler` (`/chat`) keeps a registry `sessions` from user id to the
  session of the most recent successful connect under that id (closed
  sessions stay in it). When a client connects with a `userId` handshake
  header, it parses
  the id, asks the repository for every *other* user, sends the client a
  roster pairing each of them with whether their id is already registered,
  and only then registers the new session under its id (a later connect
  under the same id replaces the earlier session). Its message, error and
  close callbacks do nothing, so the registry only ever grows.
- `MyWebSocketHandler` (`/websocket`) keeps no state. On connect it sends
  `"Hello"` when there is no `userId` header, the stored messages of the user
  when the header names a known user, and throws `IllegalStateException`
  when it names no user. An inbound frame is decoded and logged.

Modules, one per component:

- `Wrappers`: `Option`.
- `Domain`: the `User`, `MyMessage` and `UserResponse` records, the session
  handle, the payloads and frames a handler sends, inbound frames, and the
  exceptions a callback can end with.
- `UserRepo`: the repository queries `findAll(id)` (every user whose id
  differs) and `findById`, as functions over the `users` table in table order.
- `LongParse`: `Long.valueOf` in base ten, with the decimal rendering it
  inverts.
- `ChatHandler`: the roster function and the class `MyChatHandler` whose
  `sessions` map and `outbox` (the frames sent successfully, in order) are
  updated in place.
- `WebSocketHandler`: the greeting decision and inbound-frame handling of
  `MyWebSocketHandler` as functions.

Inputs from outside the process are parameters: the first `userId` header
value (`Option<string>`), the `users` table at the moment of the call
(`seq<User>`) and whether the roster is encoded and the transport accepts
it (`sendOk`). The JSON
mapper, which runs inside the process, is abstracted as the collaborator
`decode`, a function parameter.

The roster is sent before the session is registered. The handlers do not
broadcast presence, route or persist messages, deregister on close, or look
up an id from a session.

## Model

| member | source | states |
|---|---|---|
| `UserRepo.FindAll` | src/main/java/beksutlan/websocket/WebsocketApplication.java:181-183 | a user is returned iff it is in the table and its id differs from the argument; the result is no longer than the table |
| `UserRepo.FindAllAppend` | src/main/java/beksutlan/websocket/WebsocketApplication.java:182-183 | the query distributes over concatenation of the table, so returned rows keep table order |
| `UserRepo.FindAllSingle` | src/main/java/beksutlan/websocket/WebsocketApplication.java:182 | a one-row table is returned whole iff its id differs, else empty |
| `UserRepo.FindAllNoMatch` | src/main/java/beksutlan/websocket/WebsocketApplication.java:182-183 | when no row has the id, the whole table comes back in order |
| `UserRepo.FindById` | src/main/java/beksutlan/websocket/WebsocketApplication.java:146-147 | a found user is in the table and has the id; nothing is found iff no row has the id |
| `UserRepo.FindByIdUnique` | src/main/java/beksutlan/websocket/WebsocketApplication.java:188-190 | with ids unique (the primary key), looking up a row's id finds that row |
| `LongParse.ParseLong` | src/main/java/beksutlan/websocket/WebsocketApplication.java:70 | a string is accepted iff after an optional sign it is a non-empty run of decimal digits whose signed value fits in 64 bits; the result is that value |
| `LongParse.ParseToDecimal` | src/main/java/beksutlan/websocket/WebsocketApplication.java:70 | parsing the decimal rendering of any 64-bit value gives that value |
| `LongParse.ParsePlusSign` | src/main/java/beksutlan/websocket/WebsocketApplication.java:145 | a leading `+` before a non-negative rendering is accepted and gives the same value |
| `ChatHandler.Roster` | src/main/java/beksutlan/websocket/WebsocketApplication.java:72-75 | one entry per user in the same order; entry i wraps user i and is online iff that user's id is a key of the registry |
| `ChatHandler.RosterOfOthers` | src/main/java/beksutlan/websocket/WebsocketApplication.java:71-75 | the roster for id lists a user iff it is in the table with a different id; no entry has the connecting id; each entry is online iff registered |
| `ChatHandler.MyChatHandler.constructor` | src/main/java/beksutlan/websocket/WebsocketApplication.java:58 | the registry and the outbox start empty |
| `ChatHandler.MyChatHandler.AfterConnectionEstablished` | src/main/java/beksutlan/websocket/WebsocketApplication.java:67-83 | no header: nothing sent, registry unchanged; malformed id or refused send: the exception, nothing sent, registry unchanged; otherwise one roster frame built from the registry as it was before the call, then the id maps to the new session, every other entry unchanged; the key set never shrinks |
| `ChatHandler.MyChatHandler.HandleMessage` | src/main/java/beksutlan/websocket/WebsocketApplication.java:85-88 | registry and outbox unchanged |
| `ChatHandler.MyChatHandler.HandleTransportError` | src/main/java/beksutlan/websocket/WebsocketApplication.java:90-93 | registry and outbox unchanged: a failed session stays registered |
| `ChatHandler.MyChatHandler.AfterConnectionClosed` | src/main/java/beksutlan/websocket/WebsocketApplication.java:95-98 | registry and outbox unchanged: a closed session stays registered |
| `ChatHandler.ConnectTwoUsers` | src/main/java/beksutlan/websocket/WebsocketApplication.java:67-83 | when two users connect in turn, the first is told the second is offline and the second is told the first is online |
| `WebSocketHandler.AfterConnectionEstablished` | src/main/java/beksutlan/websocket/WebsocketApplication.java:141-156 | no header sends exactly "Hello"; a malformed id fails with NumberFormat; a parsed id fails with IllegalState iff no user has it, a parsed id that some user has always sends, and what is sent is the messages of a user with that id |
| `WebSocketHandler.GreetingForKnownUser` | src/main/java/beksutlan/websocket/WebsocketApplication.java:143-149 | with unique ids, every header that parses to a user's id (any sign or leading zeros) sends exactly that user's messages |
| `WebSocketHandler.HandleMessage` | src/main/java/beksutlan/websocket/WebsocketApplication.java:157-162 | a non-text frame fails with ClassCast; a text frame is logged iff it decodes to a message, with that message's name and text; it fails with JsonDecode iff it does not decode, and with NullPointer iff it decodes to `null` |

## Left out

- Spring bootstrapping, `WebSocketConfig` and endpoint registration (lines 25-51): framework wiring with no logic.
- `UserController` (lines 106-124): an HTTP surface that only forwards to the repository.
- `supportsPartialMessages` (lines 100-103, 174-177): a constant `false` with no behaviour to state.
- JPA mapping, generated ids and cascade settings of `User` and `MyMessage` (lines 185-268): `User` is the record `(id, name, myMessages)`, the `from`/`to` associations of a message are user ids, and getters and setters are field access.
- JSON encoding with Gson and decoding with Jackson (lines 77, 149, 160): encoding is taken to succeed and a sent payload is the structured value the encoder is given (so a Gson failure while encoding, for example on a cycle through the `from`/`to` users of the messages it serialises, is not modelled as such; for the roster it falls under `sendOk` being false), and decoding is a function parameter that tells an invalid payload, the literal `null` and a message apart.
- Logging (line 161): `WebSocketHandler.HandleMessage` returns what would be logged.
- `LongParse.ParseLong`: accepts only the ASCII digits `0`-`9`, while `Long.valueOf` also accepts the decimal digits of other Unicode scripts.
- The order of rows returned by the `findAll` query: the query has no `ORDER BY`, so the database may return any order; the model uses table order.
- The insertion order kept by `LinkedHashMap`: nothing in the code iterates the registry, so a `map` loses nothing observable.
- Handshake headers: the model receives the first `userId` value directly, not the header bag.
- The send failure of `MyWebSocketHandler` (an `IOException` from line 149 or 151): the handler has no state, so the model gives the payload it attempts to send.
- Repository failures (database errors) and what Spring does with an exception thrown from a callback (closing the session).
- Concurrent callbacks on the unsynchronised `LinkedHashMap`: the model has a single sequential caller.
