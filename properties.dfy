/**
 * Properties of the socket layer that relate several handler calls: the
 * per-connection invariant over any run, repeated room creation, and the
 * places where the handlers, as written, do not keep the rules a chat room
 * is usually expected to keep (one shared room directory, one room per
 * connection, a current room that exists, no room traffic after logout).
 */
module Properties {
  import opened Protocol

  /** Every reachable state keeps the per-connection invariant, whatever the clients send. */
  lemma {:induction false} RunPreservesInv<J>(st: State, script: seq<(ConnId, Input<J>)>, serialize: J -> string)
    requires Inv(st)
    ensures Inv(Run(st, script, serialize))
    decreases |script|
  {
    if script != [] {
      var next := Step(st, script[0].0, script[0].1, serialize);
      RunPreservesInv(next, script[1..], serialize);
    }
  }

  /** Emissions are only ever appended: a run never rewrites what was already sent. */
  lemma {:induction false} RunExtendsLog<J>(st: State, script: seq<(ConnId, Input<J>)>, serialize: J -> string)
    ensures var r := Run(st, script, serialize);
      |st.log| <= |r.log| && r.log[..|st.log|] == st.log
    decreases |script|
  {
    if script != [] {
      var next := Step(st, script[0].0, script[0].1, serialize);
      RunExtendsLog(next, script[1..], serialize);
      var r := Run(next, script[1..], serialize);
      assert r.log[..|next.log|][..|st.log|] == r.log[..|st.log|];
    }
  }

  // ---------------------------------------------------------------------------
  // Routing
  // ---------------------------------------------------------------------------

  /** Whatever the target, an emission reaches no connection that `io.emit` would not reach. */
  lemma AudienceWithinAll(conns: map<ConnId, Conn>, t: Target)
    ensures Audience(conns, t) <= Audience(conns, ToAll)
  {
  }

  /**
   * Who an emission reaches depends only on which connections are live and
   * which rooms each has joined, not on usernames, current rooms or room lists.
   */
  lemma AudienceDependsOnMembership(conns: map<ConnId, Conn>, conns': map<ConnId, Conn>, t: Target)
    requires conns.Keys == conns'.Keys
    requires forall i :: i in conns ==> conns[i].joined == conns'[i].joined
    ensures Audience(conns, t) == Audience(conns', t)
  {
    if t.ToRoom? {
      forall i | i in Audience(conns', t) ensures i in Audience(conns, t) {
        assert i in conns;
      }
    }
  }

  /**
   * 'setUsername' and 'logout' never change who any later emission reaches:
   * identity and room membership are independent.
   */
  lemma IdentityKeepsAudiences(st: State, id: ConnId, name: string, t: Target)
    requires id in st.conns
    ensures Audience(OnSetUsername(st, id, name).conns, t) == Audience(st.conns, t)
    ensures Audience(OnLogout(st, id).conns, t) == Audience(st.conns, t)
  {
    AudienceDependsOnMembership(st.conns, OnSetUsername(st, id, name).conns, t);
    AudienceDependsOnMembership(st.conns, OnLogout(st, id).conns, t);
  }

  // ---------------------------------------------------------------------------
  // Room creation
  // ---------------------------------------------------------------------------

  /** Connection `id` asks to create each of `names` in turn. */
  function CreateRooms(st: State, id: ConnId, names: seq<string>): State
    requires id in st.conns
    decreases |names|
  {
    if names == [] then st
    else
      var next := OnCreateRoom(st, id, names[0]);
      CreateRooms(next, id, names[1..])
  }

  lemma AppendFreshKeepsNoDup(s: seq<string>, x: string)
    requires NoDup(s) && x !in s
    ensures NoDup(s + [x])
  {
  }

  /** A second 'createRoom' with the same name changes nothing and emits nothing. */
  lemma CreateRoomIdempotent(st: State, id: ConnId, name: string)
    requires id in st.conns
    ensures var once := OnCreateRoom(st, id, name);
      id in once.conns && OnCreateRoom(once, id, name) == once
  {
  }

  /**
   * However often the names repeat, each ends up in the connection's list
   * exactly once: the list stays duplicate-free, keeps what it had as a
   * prefix (creation order), gains every requested name and nothing else,
   * and no other connection is touched.
   */
  lemma {:induction false} RepeatedCreateRoom(st: State, id: ConnId, names: seq<string>)
    requires id in st.conns && NoDup(st.conns[id].rooms)
    ensures var r := CreateRooms(st, id, names);
      && OnlyConnChanged(st, r, id)
      && NoDup(r.conns[id].rooms)
      && st.conns[id].rooms <= r.conns[id].rooms
      && (forall n :: n in names ==> n in r.conns[id].rooms)
      && (forall n :: n in r.conns[id].rooms ==> n in st.conns[id].rooms || n in names)
    decreases |names|
  {
    if names != [] {
      var next := OnCreateRoom(st, id, names[0]);
      if names[0] !in st.conns[id].rooms {
        AppendFreshKeepsNoDup(st.conns[id].rooms, names[0]);
      }
      RepeatedCreateRoom(next, id, names[1..]);
      var r := CreateRooms(next, id, names[1..]);
      forall n | n in names ensures n in r.conns[id].rooms {
        if n != names[0] {
          assert n in names[1..];
        }
      }
      forall n | n in r.conns[id].rooms ensures n in st.conns[id].rooms || n in names {
        if n !in st.conns[id].rooms && n != names[0] {
          assert n in names[1..];
        }
      }
    }
  }

  /** Names the connection already has are all ignored. */
  lemma {:induction false} CreateKnownRooms(st: State, id: ConnId, names: seq<string>)
    requires id in st.conns
    requires forall n :: n in names ==> n in st.conns[id].rooms
    ensures CreateRooms(st, id, names) == st
    decreases |names|
  {
    if names != [] {
      assert names[0] in names;
      CreateKnownRooms(st, id, names[1..]);
    }
  }

  /** Replaying a whole batch of 'createRoom' requests has no further effect. */
  lemma CreateRoomsIdempotent(st: State, id: ConnId, names: seq<string>)
    requires id in st.conns && NoDup(st.conns[id].rooms)
    ensures var once := CreateRooms(st, id, names);
      id in once.conns && CreateRooms(once, id, names) == once
  {
    RepeatedCreateRoom(st, id, names);
    CreateKnownRooms(CreateRooms(st, id, names), id, names);
  }

  // ---------------------------------------------------------------------------
  // Joining, sending, leaving
  // ---------------------------------------------------------------------------

  /** Entering the room one is already in a second time changes nothing. */
  lemma EntrarChatIdempotent(st: State, id: ConnId, name: string)
    requires id in st.conns
    ensures var once := OnEntrarChat(st, id, name);
      id in once.conns && OnEntrarChat(once, id, name) == once
  {
  }

  /** Switching from room `a` to room `b` leaves `a` and enters `b`, with one notice, to `b`. */
  lemma SwitchRoom(st: State, id: ConnId, a: string, b: string)
    requires id in st.conns && st.conns[id].currentRoom == Some(a) && a != "" && a != b
    ensures var r := OnEntrarChat(st, id, b);
      && id !in Audience(r.conns, ToRoom(a))
      && id in Audience(r.conns, ToRoom(b))
      && |r.log| == |st.log| + 1
      && r.log[|st.log|].target == ToRoom(b)
  {
  }

  /** After 'logout', the connection's messages are dropped until it sets a username again. */
  lemma MensagemAfterLogoutDropped<J>(st: State, id: ConnId, msg: Payload<J>, serialize: J -> string)
    requires id in st.conns
    ensures var out := OnLogout(st, id);
      id in out.conns && OnMensagem(out, id, msg, serialize) == out
  {
  }

  /** 'mensagem' from a connection without a username never reaches anybody. */
  lemma UnidentifiedMensagemDropped<J>(st: State, id: ConnId, msg: Payload<J>, serialize: J -> string)
    requires id in st.conns && !IsSet(st.conns[id].username)
    ensures OnMensagem(st, id, msg, serialize) == st
  {
  }

  /** Two fresh connections, 0 and 1. */
  function TwoConnections(): (st: State)
    ensures st.conns.Keys == {0, 1} && Inv(st)
  {
    OnConnection(OnConnection(State(map[], []), 0), 1)
  }

  // ---------------------------------------------------------------------------
  // Where the handlers depart from the usual rules of a chat room
  // ---------------------------------------------------------------------------

  /**
   * The room list is kept per connection: a room another connection already
   * created is created again, with a second creation notice.
   */
  lemma RoomCreatedTwice()
    ensures var s1 := OnCreateRoom(TwoConnections(), 0, "geral");
      var s2 := OnCreateRoom(s1, 1, "geral");
      && s2 != s1
      && s1.log[|s1.log| - 2].event == Mensagem(System, CreatedNotice("geral"))
      && s2.log[|s2.log| - 2].event == Mensagem(System, CreatedNotice("geral"))
  {
    var s1 := OnCreateRoom(TwoConnections(), 0, "geral");
    assert s1.conns[1] == TwoConnections().conns[1];
  }

  /**
   * The list broadcast to everyone after a creation is the creator's own: after
   * 0 creates "a" and 1 creates "b", every client is told the rooms are ["b"].
   */
  lemma BroadcastListIsCreatorsOwn()
    ensures var s1 := OnCreateRoom(TwoConnections(), 0, "a");
      var s2 := OnCreateRoom(s1, 1, "b");
      s2.log[|s2.log| - 1] == Emit(ToAll, ListarChats(["b"]), {0, 1})
  {
    var s1 := OnCreateRoom(TwoConnections(), 0, "a");
    assert s1.conns[1] == TwoConnections().conns[1];
    assert s1.conns[1].rooms + ["b"] == ["b"];
    assert s1.conns.Keys == {0, 1};
  }

  /** 'createRoom' does not leave the current room: the connection ends up in two rooms. */
  lemma CreateRoomKeepsPreviousRoom(st: State, id: ConnId, a: string, b: string)
    requires Inv(st) && id in st.conns && st.conns[id].currentRoom == Some(a)
    requires b !in st.conns[id].rooms
    ensures var r := OnCreateRoom(st, id, b);
      id in Audience(r.conns, ToRoom(a)) && id in Audience(r.conns, ToRoom(b))
  {
  }

  /**
   * 'entrarChat' does not look at any room list: a connection can make current
   * a room that no connection ever created.
   */
  lemma EntrarChatOutsideDirectory(st: State, id: ConnId, name: string)
    requires id in st.conns
    requires forall j :: j in st.conns ==> name !in st.conns[j].rooms
    ensures var r := OnEntrarChat(st, id, name);
      && r.conns[id].currentRoom == Some(name)
      && forall j :: j in r.conns ==> name !in r.conns[j].rooms
  {
  }

  /**
   * A room named "" is never left: it is falsy, so 'entrarChat' skips the
   * leave step and the connection stays in both rooms.
   */
  lemma EmptyRoomNameNeverLeft(st: State, id: ConnId, other: string)
    requires id in st.conns && "" !in st.conns[id].rooms && other != ""
    ensures var s1 := OnCreateRoom(st, id, "");
      var r := OnEntrarChat(s1, id, other);
      id in Audience(r.conns, ToRoom("")) && id in Audience(r.conns, ToRoom(other))
  {
  }

  /**
   * 'logout' clears only the username: the connection stays in every room it
   * was in, so it keeps receiving their messages while its own are dropped.
   */
  lemma LoggedOutStillReceives(st: State, id: ConnId, room: string)
    requires id in st.conns && id in Audience(st.conns, ToRoom(room))
    ensures var r := OnLogout(st, id);
      id in Audience(r.conns, ToRoom(room)) && !IsSet(r.conns[id].username)
  {
  }
}
