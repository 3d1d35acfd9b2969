# Chat server socket layer, modelled in Dafny

This project models the realtime part of a small chat server: the socket.io
`connection` callback of `server.js`. Every socket that connects gets its own
state: a username, a current room, and a list of room names created through
it. Six handlers react to client events:

- `setUsername` takes a display name.
- `createRoom` creates a room and enters it.
- `entrarChat` enters a room.
- `mensagem` sends a chat line to the current room.
- `logout` clears the username.
- `disconnect` only logs.

Each handler emits events to one of three audiences: the socket itself, every
connection, or the members of a socket.io room.

The model has three modules:

- `Protocol` (`protocol.dfy`) holds the data model and one pure transition
  function per handler (`OnConnection`, `OnSetUsername`, `OnCreateRoom`,
  `OnEntrarChat`, `OnMensagem`, `OnLogout`, `OnDisconnect`). The state is a
  map from connection id to `Conn(username, currentRoom, rooms, joined)`,
  where `joined` is the socket's set of socket.io rooms. Next to the map sits
  the log of emissions. Each emission records its target, its event, and the
  recipients it reached at the moment it was made (`Audience`). `Step` and
  `Run` dispatch scripts of client inputs, one handler at a time. Three
  definitions carry the JavaScript semantics the handlers rely on. `IsSet`
  is truthiness: `null` and `""` both count as unset. `Show` is how a
  template literal renders a nullable string: `null` becomes `"null"`.
  `TextOf` is the `typeof msg === 'object'` test of server.js:118: a string
  is forwarded as it is, an object as its serialization. `Audience` is
  socket.io's delivery rule: `socket.emit` reaches the socket itself,
  `io.emit` every live connection, and `io.to(r).emit` the live connections
  that have joined `r`.
- `Server` (`coordinator.dfy`) is the imperative form. Class `Coordinator`
  holds the fields of every socket and the emission log. It has one method
  per handler, and each method updates the fields step by step, as the
  handler does. Each method is proved to reach exactly the state of the
  matching `Protocol` function. Four small client methods replay typical
  sessions: identify, create and join a room and talk, log out, disconnect.
- `Properties` (`properties.dfy`) holds lemmas that relate several calls.
  One shows that the per-connection invariant holds over any run. It says
  the room list has no duplicates and the current room is one the socket
  has joined. Others cover repeated and replayed room creation, entering a
  room twice, switching rooms, and dropped messages. The last group shows
  where the handlers depart from the rules a chat room is usually expected
  to keep.

What the code does, and the model follows, where a shared-directory reading
of the server would expect otherwise:

- **The room list is per connection.** `rooms` is declared inside the
  connection callback (server.js:66). Yet the comment at server.js:91 says the
  list is broadcast to update every client. What every client receives is
  therefore the creator's own list (`BroadcastListIsCreatorsOwn`). A room that
  another connection created can be created again, with a second notice
  (`RoomCreatedTwice`).
- **`createRoom` does not leave the current room** (server.js:85-86). A
  connection can be in several rooms at once (`CreateRoomKeepsPreviousRoom`).
- **`createRoom` and `entrarChat` do not check the username**
  (server.js:82-86, server.js:96-107). An unidentified connection can create
  and enter rooms; it enters as `null`.
- **`entrarChat` does not check any room list** (server.js:96-107). A
  connection can make current a room that nobody created
  (`EntrarChatOutsideDirectory`).
- **A room named `""` is never left**, because it is falsy at server.js:100
  (`EmptyRoomNameNeverLeft`).
- **`logout` clears only the username** (server.js:128). The connection stays
  in its rooms and keeps receiving their messages (`LoggedOutStillReceives`),
  while what it sends is dropped (`MensagemAfterLogoutDropped`).
- **Two connections may hold the same username.** `setUsername` has no
  uniqueness check (server.js:72).
- **The client's `listarChats` request has no server handler.** The client
  sends it (src/main.js:51). `Step` treats it as a no-op.

## Model

| member | source | states |
|---|---|---|
| `Protocol.OnConnection` | server.js:60-68 | a new connection starts with username and current room both `null` (not `""`), no rooms and no memberships; exactly one `listarChats([])` goes to that socket alone; others are untouched; the invariant is kept |
| `Protocol.OnSetUsername` | server.js:71-80 | the username is overwritten unconditionally and nothing else changes; `usernameConfirmed(name)` goes to the socket, then `name entrou no chat.` goes from `Sistema` to every live connection |
| `Protocol.OnCreateRoom` | server.js:82-94 | a name already in the list is a silent no-op; otherwise the name is appended at the end of the list, joined without leaving any room, and made current; the `Sala n criada.` notice goes to every member of the room, the creator among them; then the creator's list goes to everyone; the invariant is kept |
| `Protocol.OnEntrarChat` | server.js:96-113 | asking for the current room is a no-op; otherwise the previous room is left only if it is set (truthy), the new room is joined and made current, and username and rooms are unchanged; afterwards the socket is out of the old room and in the new; one `Sistema` notice goes to every member of the new room, the socket among them |
| `Protocol.OnMensagem` | server.js:116-121 | with the username or the current room unset, nothing changes and nothing is emitted; otherwise exactly one message goes to the current room under the username, with the payload text, and (given the invariant) the sender receives it too |
| `Protocol.OnLogout` | server.js:124-129 | with no username set, nothing happens; otherwise `username saiu do chat.` goes to everyone and the username becomes null; current room, memberships and rooms are unchanged in both cases |
| `Protocol.OnDisconnect` | server.js:132-134 | the connection is dropped and no one else is touched; nothing is emitted |
| `Protocol.Step` | server.js:60-135 | an event from a socket that is not connected, a second connect, and the client's `listarChats` request all do nothing; every step only appends to the log and keeps the invariant |
| `Server.Coordinator.constructor` | server.js:10 | the server starts with no connections and no emissions |
| `Server.Coordinator.EmitTo` | server.js:89 | an emission is appended with the audience of its target among the current connections; connection state is untouched |
| `Server.Coordinator.Connect` | server.js:60-68 | the in-place initialisation reaches `OnConnection`'s state and keeps the invariant |
| `Server.Coordinator.SetUsername` | server.js:71-80 | the in-place update reaches `OnSetUsername`'s state and keeps the invariant |
| `Server.Coordinator.CreateRoom` | server.js:82-94 | the push, join and current-room update reach `OnCreateRoom`'s state and keep the invariant |
| `Server.Coordinator.EntrarChat` | server.js:96-113 | the early return, leave, join and current-room update reach `OnEntrarChat`'s state and keep the invariant |
| `Server.Coordinator.Mensagem` | server.js:116-121 | the guard and forward reach `OnMensagem`'s state and keep the invariant |
| `Server.Coordinator.Logout` | server.js:124-129 | the guard, notice and clear reach `OnLogout`'s state and keep the invariant |
| `Server.Coordinator.Disconnect` | server.js:132-134 | dropping the socket reaches `OnDisconnect`'s state and keeps the invariant |
| `Server.ThreeConnections` | server.js:60-68 | three sockets connected in turn each hold the initial state |
| `Properties.RunPreservesInv` | server.js:60-135 | after any sequence of client events, every connection's room list is duplicate-free and its current room is one it has joined |
| `Properties.RunExtendsLog` | server.js:60-135 | a run only appends emissions; it never changes one already made |
| `Properties.AudienceWithinAll` | server.js:89-92 | a room or self emission never reaches a connection that `io.emit` would not reach |
| `Properties.AudienceDependsOnMembership` | server.js:85-111 | who an emission reaches depends only on which connections are live and which rooms each has joined |
| `Properties.IdentityKeepsAudiences` | server.js:71-129 | `setUsername` and `logout` never change who any emission reaches |
| `Properties.AppendFreshKeepsNoDup` | server.js:83-84 | pushing a name the list lacks keeps the list duplicate-free |
| `Properties.CreateRoomIdempotent` | server.js:83 | a second `createRoom` with the same name changes no state and emits nothing |
| `Properties.RepeatedCreateRoom` | server.js:83-84 | after any sequence of `createRoom` calls, each requested name is in the list exactly once; the old list is a prefix, so creation order is kept; nothing else is added and other connections are untouched |
| `Properties.CreateKnownRooms` | server.js:83 | `createRoom` calls for names already in the list change nothing |
| `Properties.CreateRoomsIdempotent` | server.js:82-94 | replaying a whole batch of `createRoom` calls has no further effect |
| `Properties.EntrarChatIdempotent` | server.js:97 | entering the current room again changes nothing and emits nothing |
| `Properties.SwitchRoom` | server.js:100-110 | moving from a set room `a` to `b` leaves `a`, enters `b`, and emits one notice, to `b` |
| `Properties.MensagemAfterLogoutDropped` | server.js:117-128 | after `logout`, the connection's messages are dropped |
| `Properties.UnidentifiedMensagemDropped` | server.js:117 | a `mensagem` from a connection without a username changes nothing and reaches nobody |
| `Properties.TwoConnections` | server.js:60-68 | two fresh connections satisfy the invariant |
| `Properties.RoomCreatedTwice` | server.js:66-92 | a room one connection created is created again by another, with a second creation notice |
| `Properties.BroadcastListIsCreatorsOwn` | server.js:92 | after 0 creates `a` and 1 creates `b`, everyone is sent the list `["b"]` |
| `Properties.CreateRoomKeepsPreviousRoom` | server.js:85-86 | a connection in room `a` that creates `b` is a member of both |
| `Properties.EntrarChatOutsideDirectory` | server.js:96-107 | a connection can make current a room that is in no connection's list |
| `Properties.EmptyRoomNameNeverLeft` | server.js:100-106 | after creating room `""` and entering another, the connection is in both |
| `Properties.LoggedOutStillReceives` | server.js:124-129 | after `logout`, the connection is still in every room it had joined, with its username unset |

## Left out

- The HTTP routes and static file serving (server.js:8-22, 137-139) are not part of this model. They are express plumbing.
- `/register` and `/login` (server.js:25-56) are not part of this model. They only wrap a MySQL query and bcrypt, both foreign code.
- `JSON.stringify` is not modelled. The object payload type and its serializer are parameters (`J` and `serialize`) of `OnMensagem` and `Coordinator.Mensagem`.
- Payloads that are not strings are only partly modelled. Usernames and room names are strings. A `mensagem` payload is a string or a value whose `typeof` is `"object"`, which includes `null` and arrays. Numbers, booleans and `undefined` are not modelled: the server would forward them unchanged.
- socket.io internals are not modelled: transport, actual delivery, namespaces and acknowledgements. Delivery is modelled only as the recipient set from `Audience`.
- socket.io's automatic room named after each socket's id is not modelled. Connection ids are numbers here, so a room name can never address a socket.
- Disconnect cleanup is reduced to one step. The handler itself only logs. socket.io then drops the socket and its memberships, and the model does this by removing the connection.
- `console.log` lines are not modelled. They are logging only.
- src/main.js is not part of this model. It is browser DOM wiring; only its unanswered `listarChats` request appears, as `Input.RequestList`.
- Concurrency is not modelled. Handlers run one at a time, each to completion, on one event loop, and `Run` models exactly that.
