/**
 * The socket layer as the server runs it: one object holding every live
 * connection's fields and the stream of emissions, and one method per
 * handler that updates those fields in place, step by step, as the handler
 * does. Each method is proved to leave the object in the state the matching
 * transition function of Protocol describes.
 */
module Server {
  import opened Protocol

  class Coordinator {
    /** The fields of every connected socket, by connection id. */
    var conns: map<ConnId, Conn>
    /** Every emission made so far, in order, with its recipients. */
    var log: seq<Emit>

    ghost function Snapshot(): State
      reads this
    {
      State(conns, log)
    }

    ghost predicate Valid()
      reads this
    {
      Inv(Snapshot())
    }

    constructor ()
      ensures Valid()
      ensures conns == map[] && log == []
    {
      conns := map[];
      log := [];
    }

    /** Deliver `e` to the audience of `t` among the current connections. */
    method EmitTo(t: Target, e: Event)
      modifies this`log
      ensures Snapshot() == Send(old(Snapshot()), t, e)
    {
      log := log + [Emit(t, e, Audience(conns, t))];
    }

    /** The 'connection' callback: initialise the socket's fields and send it the empty room list. */
    method Connect(id: ConnId)
      requires Valid() && id !in conns
      modifies this
      ensures Valid()
      ensures Snapshot() == OnConnection(old(Snapshot()), id)
    {
      conns := conns[id := Conn(None, None, [], {})];
      EmitTo(ToSelf(id), ListarChats(conns[id].rooms));
    }

    method SetUsername(id: ConnId, name: string)
      requires Valid() && id in conns
      modifies this
      ensures Valid()
      ensures Snapshot() == OnSetUsername(old(Snapshot()), id, name)
    {
      conns := conns[id := conns[id].(username := Some(name))];
      EmitTo(ToSelf(id), UsernameConfirmed(name));
      EmitTo(ToAll, Protocol.Mensagem(System, JoinedChatNotice(name)));
    }

    method CreateRoom(id: ConnId, chatName: string)
      requires Valid() && id in conns
      modifies this
      ensures Valid()
      ensures Snapshot() == OnCreateRoom(old(Snapshot()), id, chatName)
    {
      if chatName !in conns[id].rooms {
        conns := conns[id := conns[id].(rooms := conns[id].rooms + [chatName])];
        conns := conns[id := conns[id].(joined := conns[id].joined + {chatName})];
        conns := conns[id := conns[id].(currentRoom := Some(chatName))];
        assert conns == old(conns)[id := conns[id]];
        EmitTo(ToRoom(chatName), Protocol.Mensagem(System, CreatedNotice(chatName)));
        EmitTo(ToAll, ListarChats(conns[id].rooms));
      }
    }

    method EntrarChat(id: ConnId, chatName: string)
      requires Valid() && id in conns
      modifies this
      ensures Valid()
      ensures Snapshot() == OnEntrarChat(old(Snapshot()), id, chatName)
    {
      if conns[id].currentRoom == Some(chatName) {
        return;
      }
      if IsSet(conns[id].currentRoom) {
        conns := conns[id := conns[id].(joined := conns[id].joined - {conns[id].currentRoom.value})];
      }
      conns := conns[id := conns[id].(joined := conns[id].joined + {chatName})];
      conns := conns[id := conns[id].(currentRoom := Some(chatName))];
      assert conns == old(conns)[id := conns[id]];
      EmitTo(ToRoom(chatName), Protocol.Mensagem(System, EnteredRoomNotice(Show(conns[id].username), chatName)));
    }

    method Mensagem<J>(id: ConnId, msg: Payload<J>, serialize: J -> string)
      requires Valid() && id in conns
      modifies this
      ensures Valid()
      ensures Snapshot() == OnMensagem(old(Snapshot()), id, msg, serialize)
    {
      if !IsSet(conns[id].username) || !IsSet(conns[id].currentRoom) {
        return;
      }
      var messageText := TextOf(msg, serialize);
      EmitTo(ToRoom(conns[id].currentRoom.value), Protocol.Mensagem(conns[id].username.value, messageText));
    }

    method Logout(id: ConnId)
      requires Valid() && id in conns
      modifies this
      ensures Valid()
      ensures Snapshot() == OnLogout(old(Snapshot()), id)
    {
      if !IsSet(conns[id].username) {
        return;
      }
      EmitTo(ToAll, Protocol.Mensagem(System, LeftChatNotice(conns[id].username.value)));
      conns := conns[id := conns[id].(username := None)];
    }

    /** The 'disconnect' handler only logs; the transport then drops the socket. */
    method Disconnect(id: ConnId)
      requires Valid() && id in conns
      modifies this
      ensures Valid()
      ensures Snapshot() == OnDisconnect(old(Snapshot()), id)
    {
      conns := conns - {id};
    }
  }

  /** Three fresh connections, 1, 2 and 3. */
  method ThreeConnections() returns (co: Coordinator)
    ensures fresh(co) && co.Valid() && co.conns.Keys == {1, 2, 3}
    ensures forall i :: i in co.conns ==> co.conns[i] == Conn(None, None, [], {})
  {
    co := new Coordinator();
    co.Connect(1);
    co.Connect(2);
    co.Connect(3);
  }

  /** alice (1) identifies: everyone, in a room or not, hears of it. */
  method IdentityScenario()
  {
    var co := ThreeConnections();
    co.SetUsername(1, "alice");
    assert JoinedChatNotice("alice") == "alice entrou no chat.";
    assert co.log[|co.log| - 1] == Emit(ToAll, Mensagem(System, "alice entrou no chat."), {1, 2, 3});
    assert co.log[|co.log| - 2] == Emit(ToSelf(1), UsernameConfirmed("alice"), {1});
  }

  /**
   * alice (1) creates "general", bob (2) enters it and says "hi": only the
   * two of them receive it, carol (3) does not.
   */
  method RoomScenario<J>(serialize: J -> string)
  {
    var co := ThreeConnections();
    co.SetUsername(1, "alice");
    co.CreateRoom(1, "general");
    assert co.conns[1].rooms == ["general"];
    assert co.log[|co.log| - 1] == Emit(ToAll, ListarChats(["general"]), {1, 2, 3});
    co.SetUsername(2, "bob");
    co.EntrarChat(2, "general");
    co.Mensagem(2, Str("hi"), serialize);
    assert co.log[|co.log| - 1].recipients == {1, 2};
    assert co.log[|co.log| - 1].event == Mensagem("bob", "hi");
  }

  /** After alice (1) logs out, what she sends is dropped. */
  method LogoutScenario<J>(serialize: J -> string)
  {
    var co := ThreeConnections();
    co.SetUsername(1, "alice");
    assert co.conns[1].username == Some("alice") && co.conns.Keys == {1, 2, 3};
    co.Logout(1);
    assert co.conns[1].username == None;
    assert LeftChatNotice("alice") == "alice saiu do chat.";
    assert co.log[|co.log| - 1] == Emit(ToAll, Mensagem(System, "alice saiu do chat."), {1, 2, 3});
    var before := co.log;
    co.Mensagem(1, Str("still here?"), serialize);
    assert co.log == before;
  }

  /** bob (2) disconnects from "general" silently; carol (3) can still enter it. */
  method DisconnectScenario()
  {
    var co := ThreeConnections();
    co.CreateRoom(2, "general");
    var before := co.log;
    co.Disconnect(2);
    assert co.log == before;
    co.EntrarChat(3, "general");
    assert co.log[|co.log| - 1].recipients == {3};
  }
}
