/**
 * The per-connection state of the chat server's socket layer, the events it
 * emits, and one pure transition function per socket handler.
 *
 * A connection keeps the fields the server puts on each socket (its username
 * and current room), the list of room names created through it (declared
 * inside the connection callback, so one list per connection), and the set of
 * socket.io rooms the socket has joined. Every emission is recorded together
 * with the connections it reaches at the moment it is made.
 */
module Protocol {

  datatype Option<T> = None | Some(value: T)

  /** Transport-assigned connection identifier. */
  type ConnId = nat

  /** The author of every server-generated notice. */
  const System: string := "Sistema"

  /** JavaScript truthiness of a nullable string: null and "" are both unset. */
  predicate IsSet(o: Option<string>)
  {
    o.Some? && o.value != ""
  }

  /** How a template literal renders a nullable string: null becomes "null". */
  function Show(o: Option<string>): string
  {
    match o
    case Some(s) => s
    case None => "null"
  }

  datatype Conn = Conn(
    username: Option<string>,
    currentRoom: Option<string>,
    rooms: seq<string>,
    joined: set<string>)

  /** Who an emission is addressed to: the socket itself, every connection, or a socket.io room. */
  datatype Target = ToSelf(id: ConnId) | ToAll | ToRoom(room: string)

  /** Server-to-client events with their payloads. */
  datatype Event =
    | ListarChats(list: seq<string>)
    | UsernameConfirmed(name: string)
    | Mensagem(user: string, text: string)

  /** One emission and the connections it was delivered to. */
  datatype Emit = Emit(target: Target, event: Event, recipients: set<ConnId>)

  /** A client 'mensagem' payload: a string, or any value whose typeof is "object" (of type J). */
  datatype Payload<J> = Str(s: string) | Obj(obj: J)

  datatype State = State(conns: map<ConnId, Conn>, log: seq<Emit>)

  // Notice texts.

  function JoinedChatNotice(name: string): string { name + " entrou no chat." }

  function LeftChatNotice(name: string): string { name + " saiu do chat." }

  function CreatedNotice(room: string): string { "Sala " + room + " criada." }

  function EnteredRoomNotice(user: string, room: string): string
  {
    user + " entrou na sala " + room + "."
  }

  /** The text a 'mensagem' payload is forwarded with: strings as they are, objects serialized. */
  function TextOf<J>(msg: Payload<J>, serialize: J -> string): string
  {
    match msg
    case Str(s) => s
    case Obj(o) => serialize(o)
  }

  /** The connections an emission to `t` reaches, given the live connections. */
  function Audience(conns: map<ConnId, Conn>, t: Target): set<ConnId>
  {
    match t
    case ToSelf(id) => conns.Keys * {id}
    case ToAll => conns.Keys
    case ToRoom(room) => set i | i in conns && room in conns[i].joined
  }

  /** Emits `e` to `t` on top of `st`: the recipients are those of `st`'s connections. */
  function Send(st: State, t: Target, e: Event): State
  {
    State(st.conns, st.log + [Emit(t, e, Audience(st.conns, t))])
  }

  predicate NoDup(s: seq<string>)
  {
    forall i, j :: 0 <= i < j < |s| ==> s[i] != s[j]
  }

  /**
   * What every connection keeps: its room list has no repeated name, and a
   * current room, when there is one, is a room the socket has joined.
   */
  predicate ConnInv(c: Conn)
  {
    && NoDup(c.rooms)
    && (c.currentRoom.Some? ==> c.currentRoom.value in c.joined)
  }

  predicate Inv(st: State)
  {
    forall id :: id in st.conns ==> ConnInv(st.conns[id])
  }

  /** `r` differs from `st` at most in connection `id`, which is live in both, and in the log. */
  predicate OnlyConnChanged(st: State, r: State, id: ConnId)
  {
    && id in st.conns && id in r.conns
    && r.conns.Keys == st.conns.Keys
    && (forall j :: j in st.conns && j != id ==> r.conns[j] == st.conns[j])
  }

  /** The log of `r` extends that of `st` by exactly `extra`. */
  predicate Appended(st: State, r: State, extra: seq<Emit>)
  {
    r.log == st.log + extra
  }

  // ---------------------------------------------------------------------------
  // One transition function per handler of the 'connection' callback.
  // ---------------------------------------------------------------------------

  /** A new connection: nothing set, no rooms, and the empty room list sent to itself only. */
  function OnConnection(st: State, id: ConnId): (r: State)
    requires id !in st.conns
    ensures r.conns.Keys == st.conns.Keys + {id}
    ensures forall j :: j in st.conns ==> r.conns[j] == st.conns[j]
    ensures r.conns[id] == Conn(None, None, [], {})
    ensures Appended(st, r, [Emit(ToSelf(id), ListarChats([]), {id})])
    ensures Inv(st) ==> Inv(r)
  {
    var conns := st.conns[id := Conn(None, None, [], {})];
    assert conns.Keys * {id} == {id};
    Send(State(conns, st.log), ToSelf(id), ListarChats([]))
  }

  /**
   * 'setUsername': the name is taken unconditionally (no check against other
   * connections), confirmed to the socket, and announced to everyone.
   */
  function OnSetUsername(st: State, id: ConnId, name: string): (r: State)
    requires id in st.conns
    ensures OnlyConnChanged(st, r, id)
    ensures r.conns[id] == st.conns[id].(username := Some(name))
    ensures Appended(st, r, [
      Emit(ToSelf(id), UsernameConfirmed(name), {id}),
      Emit(ToAll, Mensagem(System, JoinedChatNotice(name)), st.conns.Keys)])
    ensures Inv(st) ==> Inv(r)
  {
    var c := st.conns[id];
    var s1 := State(st.conns[id := c.(username := Some(name))], st.log);
    assert s1.conns.Keys == st.conns.Keys && s1.conns.Keys * {id} == {id};
    var s2 := Send(s1, ToSelf(id), UsernameConfirmed(name));
    Send(s2, ToAll, Mensagem(System, JoinedChatNotice(name)))
  }

  /**
   * 'createRoom': a name already in this connection's list is ignored.
   * Otherwise the name is appended to the list, the socket joins it (without
   * leaving any room it is in), it becomes the current room, the room is told
   * it was created, and everyone is sent this connection's list.
   */
  function OnCreateRoom(st: State, id: ConnId, name: string): (r: State)
    requires id in st.conns
    ensures OnlyConnChanged(st, r, id)
    ensures name in st.conns[id].rooms ==> r == st
    ensures name !in st.conns[id].rooms ==>
      var c, c' := st.conns[id], r.conns[id];
      && c'.username == c.username
      && c'.rooms == c.rooms + [name]
      && c'.joined == c.joined + {name}
      && id in Audience(r.conns, ToRoom(name))
      && c'.currentRoom == Some(name)
      && |r.log| == |st.log| + 2 && r.log[..|st.log|] == st.log
      && r.log[|st.log|] == Emit(ToRoom(name), Mensagem(System, CreatedNotice(name)), Audience(r.conns, ToRoom(name)))
      && id in r.log[|st.log|].recipients
      && r.log[|st.log| + 1] == Emit(ToAll, ListarChats(c'.rooms), st.conns.Keys)
    ensures name in r.conns[id].rooms
    ensures st.conns[id].joined <= r.conns[id].joined
    ensures Inv(st) ==> Inv(r)
  {
    var c := st.conns[id];
    if name in c.rooms then st
    else
      var c' := c.(rooms := c.rooms + [name], joined := c.joined + {name}, currentRoom := Some(name));
      var s1 := State(st.conns[id := c'], st.log);
      var s2 := Send(s1, ToRoom(name), Mensagem(System, CreatedNotice(name)));
      assert id in s2.log[|st.log|].recipients;
      Send(s2, ToAll, ListarChats(c'.rooms))
  }

  /**
   * 'entrarChat': asking for the current room is ignored. Otherwise the socket
   * leaves its current room if that one is set (truthy), joins `name` whether
   * or not any connection created it, makes it current, and the room gets one
   * notice. The notice shows the username as a template literal does, so an
   * unidentified connection enters as "null".
   */
  function OnEntrarChat(st: State, id: ConnId, name: string): (r: State)
    requires id in st.conns
    ensures OnlyConnChanged(st, r, id)
    ensures st.conns[id].currentRoom == Some(name) ==> r == st
    ensures st.conns[id].currentRoom != Some(name) ==>
      var c, c' := st.conns[id], r.conns[id];
      && c'.username == c.username
      && c'.rooms == c.rooms
      && c'.currentRoom == Some(name)
      && c'.joined == (if IsSet(c.currentRoom) then c.joined - {c.currentRoom.value} else c.joined) + {name}
      && (IsSet(c.currentRoom) ==> id !in Audience(r.conns, ToRoom(c.currentRoom.value)))
      && |r.log| == |st.log| + 1 && r.log[..|st.log|] == st.log
      && r.log[|st.log|] == Emit(ToRoom(name), Mensagem(System, EnteredRoomNotice(Show(c.username), name)),
                                 Audience(r.conns, ToRoom(name)))
      && id in r.log[|st.log|].recipients
    ensures Inv(st) ==> Inv(r)
  {
    var c := st.conns[id];
    if c.currentRoom == Some(name) then st
    else
      var left := if IsSet(c.currentRoom) then c.joined - {c.currentRoom.value} else c.joined;
      var c' := c.(joined := left + {name}, currentRoom := Some(name));
      var s1 := State(st.conns[id := c'], st.log);
      assert IsSet(c.currentRoom) ==> id !in Audience(s1.conns, ToRoom(c.currentRoom.value));
      Send(s1, ToRoom(name), Mensagem(System, EnteredRoomNotice(Show(c.username), name)))
  }

  /**
   * 'mensagem' from a client: dropped unless both the username and the current
   * room are set (truthy); otherwise forwarded once to the current room under
   * the sender's username. The sender is among the recipients.
   */
  function OnMensagem<J>(st: State, id: ConnId, msg: Payload<J>, serialize: J -> string): (r: State)
    requires id in st.conns
    ensures r.conns == st.conns
    ensures !(IsSet(st.conns[id].username) && IsSet(st.conns[id].currentRoom)) ==> r == st
    ensures IsSet(st.conns[id].username) && IsSet(st.conns[id].currentRoom) ==>
      var c := st.conns[id];
      && |r.log| == |st.log| + 1 && r.log[..|st.log|] == st.log
      && r.log[|st.log|] == Emit(ToRoom(c.currentRoom.value), Mensagem(c.username.value, TextOf(msg, serialize)),
                                 Audience(st.conns, ToRoom(c.currentRoom.value)))
      && (Inv(st) ==> id in r.log[|st.log|].recipients)
  {
    var c := st.conns[id];
    if !IsSet(c.username) || !IsSet(c.currentRoom) then st
    else Send(st, ToRoom(c.currentRoom.value), Mensagem(c.username.value, TextOf(msg, serialize)))
  }

  /**
   * 'logout': ignored when no username is set; otherwise everyone is told the
   * user left and the username is cleared. Room state is left as it was.
   */
  function OnLogout(st: State, id: ConnId): (r: State)
    requires id in st.conns
    ensures OnlyConnChanged(st, r, id)
    ensures !IsSet(st.conns[id].username) ==> r == st
    ensures IsSet(st.conns[id].username) ==>
      && r.conns[id] == st.conns[id].(username := None)
      && Appended(st, r, [Emit(ToAll, Mensagem(System, LeftChatNotice(st.conns[id].username.value)), st.conns.Keys)])
    ensures r.conns[id].currentRoom == st.conns[id].currentRoom
    ensures r.conns[id].joined == st.conns[id].joined && r.conns[id].rooms == st.conns[id].rooms
    ensures Inv(st) ==> Inv(r)
  {
    var c := st.conns[id];
    if !IsSet(c.username) then st
    else
      var s1 := Send(st, ToAll, Mensagem(System, LeftChatNotice(c.username.value)));
      State(s1.conns[id := c.(username := None)], s1.log)
  }

  /**
   * 'disconnect': the handler only logs; the transport drops the socket, with
   * its room memberships and its room list. Nothing is emitted.
   */
  function OnDisconnect(st: State, id: ConnId): (r: State)
    requires id in st.conns
    ensures r.conns.Keys == st.conns.Keys - {id}
    ensures forall j :: j in r.conns ==> r.conns[j] == st.conns[j]
    ensures r.log == st.log
    ensures Inv(st) ==> Inv(r)
  {
    State(st.conns - {id}, st.log)
  }

  // ---------------------------------------------------------------------------
  // Client inputs and runs. Handlers run one at a time, each to completion.
  // ---------------------------------------------------------------------------

  /** What a client can do; RequestList is the 'listarChats' request, for which the server has no handler. */
  datatype Input<J> =
    | Connect
    | SetUsername(name: string)
    | CreateRoom(name: string)
    | EntrarChat(name: string)
    | SendMensagem(msg: Payload<J>)
    | Logout
    | Disconnect
    | RequestList

  /** Dispatch one input from connection `id`. Events from a socket that is not connected do nothing. */
  function Step<J>(st: State, id: ConnId, input: Input<J>, serialize: J -> string): (r: State)
    ensures input.RequestList? ==> r == st
    ensures !input.Connect? && id !in st.conns ==> r == st
    ensures input.Connect? && id in st.conns ==> r == st
    ensures |st.log| <= |r.log| && r.log[..|st.log|] == st.log
    ensures Inv(st) ==> Inv(r)
  {
    if input.Connect? then
      if id in st.conns then st else OnConnection(st, id)
    else if id !in st.conns then st
    else
      match input
      case SetUsername(name) => OnSetUsername(st, id, name)
      case CreateRoom(name) => OnCreateRoom(st, id, name)
      case EntrarChat(name) => OnEntrarChat(st, id, name)
      case SendMensagem(msg) => OnMensagem(st, id, msg, serialize)
      case Logout => OnLogout(st, id)
      case Disconnect => OnDisconnect(st, id)
      case RequestList => st
  }

  /** Run a script of (connection, input) pairs in order. */
  function Run<J>(st: State, script: seq<(ConnId, Input<J>)>, serialize: J -> string): State
    decreases |script|
  {
    if script == [] then st
    else Run(Step(st, script[0].0, script[0].1, serialize), script[1..], serialize)
  }
}
