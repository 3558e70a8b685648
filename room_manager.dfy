/**
 * The room matchmaking service of the game server (server.js): a process-wide
 * map from room code to room, the dispatcher for the three request kinds and
 * their handlers, which change the map and queue messages for connections.
 *
 * Connections are opaque handles compared by identity; whether a connection
 * is open at the moment a handler runs is given as the set `open`. A handler
 * runs to completion before the next request is taken, so `open` is fixed
 * for the duration of one request.
 */
module RoomManager {
  import opened Wrappers

  /** An opaque handle to one client connection; equality is identity of the connection. */
  type ConnId = nat
  type RoomId = string
  type PlayerId = string

  datatype Status = Waiting | Playing

  datatype Player = Player(id: PlayerId, ws: ConnId, isOwner: bool, color: string)

  datatype Room = Room(id: RoomId, players: seq<Player>, status: Status, maxPlayers: nat)

  /** What clients are told about a player: its id and owner flag, never its color. */
  datatype PlayerView = PlayerView(id: PlayerId, isOwner: bool)

  /** Server-to-client messages; RoomJoinedOk and RoomJoinFailed are the two shapes of 'room_joined'. */
  datatype Message =
    | RoomCreated(roomId: RoomId)
    | RoomJoinedOk(roomId: RoomId, players: seq<PlayerView>)
    | RoomJoinFailed(reason: string)
    | PlayerJoined(roomId: RoomId, players: seq<PlayerView>)
    | GameStarted(roomId: RoomId)

  /** One message handed to one connection's send. */
  datatype Outbound = Outbound(to: ConnId, msg: Message)

  /** A parsed client message: `kind` is its `type` field; `playerId` is unused by start_game. */
  datatype Request = Request(kind: string, roomId: RoomId, playerId: PlayerId)

  /** The registry after one request, and the messages the request sent, in order. */
  datatype Effect = Effect(rooms: map<RoomId, Room>, sent: seq<Outbound>)

  const MaxPlayers: nat := 2
  const OwnerColor: string := "red"
  const JoinerColor: string := "blue"
  /** "the room does not exist" */
  const RoomNotFound: string := "\U{623F}\U{95F4}\U{4E0D}\U{5B58}\U{5728}"
  /** "the room is full" */
  const RoomFull: string := "\U{623F}\U{95F4}\U{5DF2}\U{6EE1}"

  const CreateRoomKind: string := "create_room"
  const JoinRoomKind: string := "join_room"
  const StartGameKind: string := "start_game"

  // ---------------------------------------------------------------------------
  // Structural invariants of rooms
  // ---------------------------------------------------------------------------

  /**
   * A room as the handlers build it: stored under its own code, capacity 2,
   * between one and two players, the owner first and the only owner, the
   * owner red and every joiner blue.
   */
  ghost predicate WellFormedRoom(id: RoomId, r: Room)
  {
    && r.id == id
    && r.maxPlayers == MaxPlayers
    && 1 <= |r.players| <= r.maxPlayers
    && r.players[0].isOwner
    && r.players[0].color == OwnerColor
    && forall i :: 1 <= i < |r.players| ==> !r.players[i].isOwner && r.players[i].color == JoinerColor
  }

  ghost predicate RegistryValid(rooms: map<RoomId, Room>)
  {
    forall id :: id in rooms ==> WellFormedRoom(id, rooms[id])
  }

  // ---------------------------------------------------------------------------
  // Pieces shared by the handlers
  // ---------------------------------------------------------------------------

  /** The room a create_room request stores: its creator as the only player and owner. */
  function NewRoom(roomId: RoomId, playerId: PlayerId, ws: ConnId): (r: Room)
    ensures WellFormedRoom(roomId, r)
    ensures r.status == Waiting && |r.players| == 1
    ensures r.players[0].id == playerId && r.players[0].ws == ws
  {
    Room(roomId, [Player(playerId, ws, true, OwnerColor)], Waiting, MaxPlayers)
  }

  /** The player a successful join_room appends. */
  function Joiner(data: Request, ws: ConnId): (p: Player)
    ensures p.id == data.playerId && p.ws == ws
    ensures !p.isOwner && p.color == JoinerColor
  {
    Player(data.playerId, ws, false, JoinerColor)
  }

  /** The player list as it is sent to clients: id and owner flag, in join order. */
  function Project(players: seq<Player>): (views: seq<PlayerView>)
    ensures |views| == |players|
    ensures forall i :: 0 <= i < |players| ==> views[i].id == players[i].id && views[i].isOwner == players[i].isOwner
  {
    if players == [] then [] else Project(players[..|players| - 1]) + [PlayerView(players[|players| - 1].id, players[|players| - 1].isOwner)]
  }

  /**
   * The messages of one forEach over a room's players that sends `msg` to
   * every player whose connection is open, in join order.
   */
  function Broadcast(players: seq<Player>, open: set<ConnId>, msg: Message): (out: seq<Outbound>)
    ensures |out| <= |players|
    ensures forall k :: 0 <= k < |out| ==> out[k].msg == msg && out[k].to in open
  {
    if players == [] then []
    else
      var last := players[|players| - 1];
      Broadcast(players[..|players| - 1], open, msg) + (if last.ws in open then [Outbound(last.ws, msg)] else [])
  }

  /** `Array.prototype.find` for the owner flag: the first player marked as owner, if any. */
  function FindOwner(players: seq<Player>): (r: Option<Player>)
    ensures r.None? <==> forall i :: 0 <= i < |players| ==> !players[i].isOwner
    ensures r.Some? ==> r.value.isOwner && exists i :: 0 <= i < |players| && players[i] == r.value && forall j :: 0 <= j < i ==> !players[j].isOwner
  {
    if players == [] then None
    else if players[0].isOwner then Some(players[0])
    else
      var r := FindOwner(players[1..]);
      assert r.Some? ==> exists i :: 0 <= i < |players| && players[i] == r.value && forall j :: 0 <= j < i ==> !players[j].isOwner by {
        if r.Some? {
          var i :| 0 <= i < |players[1..]| && players[1..][i] == r.value && forall j :: 0 <= j < i ==> !players[1..][j].isOwner;
          assert players[i + 1] == r.value;
          assert forall j :: 0 <= j < i + 1 ==> !players[j].isOwner by {
            forall j | 0 <= j < i + 1 ensures !players[j].isOwner {
              if j > 0 { assert players[j] == players[1..][j - 1]; }
            }
          }
        }
      }
      assert r.None? ==> forall i :: 0 <= i < |players| ==> !players[i].isOwner by {
        if r.None? {
          forall i | 0 <= i < |players| ensures !players[i].isOwner {
            if i > 0 { assert players[i] == players[1..][i - 1]; }
          }
        }
      }
      r
  }

  /** The room exists, has an owner, and that owner's connection is the requester's. */
  predicate IsOwnerConnection(rooms: map<RoomId, Room>, roomId: RoomId, ws: ConnId)
  {
    && roomId in rooms
    && var owner := FindOwner(rooms[roomId].players);
    && owner.Some?
    && owner.value.ws == ws
  }

  /** The room exists and has a free seat. */
  predicate CanJoin(rooms: map<RoomId, Room>, roomId: RoomId)
  {
    roomId in rooms && |rooms[roomId].players| < rooms[roomId].maxPlayers
  }

  // ---------------------------------------------------------------------------
  // The handlers as functions of the registry
  // ---------------------------------------------------------------------------

  /**
   * create_room: stores a fresh room under the requested code, replacing any
   * room already stored there, and tells only the requester.
   */
  function CreateRoomEffect(rooms: map<RoomId, Room>, ws: ConnId, data: Request): (e: Effect)
    ensures e.rooms.Keys == rooms.Keys + {data.roomId}
    ensures e.rooms[data.roomId] == NewRoom(data.roomId, data.playerId, ws)
    ensures forall k :: k in rooms && k != data.roomId ==> e.rooms[k] == rooms[k]
    ensures |e.sent| == 1 && e.sent[0].to == ws && e.sent[0].msg == RoomCreated(data.roomId)
    ensures RegistryValid(rooms) ==> RegistryValid(e.rooms)
  {
    Effect(rooms[data.roomId := NewRoom(data.roomId, data.playerId, ws)], [Outbound(ws, RoomCreated(data.roomId))])
  }

  /**
   * join_room: refuses a missing room and then a full one, each with a reason
   * sent to the requester only; otherwise appends the requester as a blue
   * non-owner, answers with the new list and then announces it to every open
   * member, the joiner included.
   */
  function JoinRoomEffect(rooms: map<RoomId, Room>, ws: ConnId, data: Request, open: set<ConnId>): (e: Effect)
    ensures e.rooms.Keys == rooms.Keys
    ensures forall k :: k in rooms && k != data.roomId ==> e.rooms[k] == rooms[k]
    ensures data.roomId !in rooms ==> e == Effect(rooms, [Outbound(ws, RoomJoinFailed(RoomNotFound))])
    ensures data.roomId in rooms && !CanJoin(rooms, data.roomId) ==> e == Effect(rooms, [Outbound(ws, RoomJoinFailed(RoomFull))])
    ensures CanJoin(rooms, data.roomId) ==>
      var before := rooms[data.roomId];
      var after := e.rooms[data.roomId];
      var views := Project(after.players);
      && after == before.(players := before.players + [Joiner(data, ws)])
      && e.sent == [Outbound(ws, RoomJoinedOk(data.roomId, views))] + Broadcast(after.players, open, PlayerJoined(data.roomId, views))
    ensures RegistryValid(rooms) ==> RegistryValid(e.rooms)
  {
    if data.roomId !in rooms then
      Effect(rooms, [Outbound(ws, RoomJoinFailed(RoomNotFound))])
    else
      var room := rooms[data.roomId];
      if |room.players| >= room.maxPlayers then
        Effect(rooms, [Outbound(ws, RoomJoinFailed(RoomFull))])
      else
        var joined := room.(players := room.players + [Joiner(data, ws)]);
        var views := Project(joined.players);
        Effect(rooms[data.roomId := joined],
               [Outbound(ws, RoomJoinedOk(data.roomId, views))] + Broadcast(joined.players, open, PlayerJoined(data.roomId, views)))
  }

  /**
   * start_game: ignored unless the room exists and the requester is its
   * owner's connection; then the room is marked playing, whatever its status
   * was, and every open member is told.
   */
  function StartGameEffect(rooms: map<RoomId, Room>, ws: ConnId, data: Request, open: set<ConnId>): (e: Effect)
    ensures !IsOwnerConnection(rooms, data.roomId, ws) ==> e == Effect(rooms, [])
    ensures IsOwnerConnection(rooms, data.roomId, ws) ==>
      && e.rooms == rooms[data.roomId := rooms[data.roomId].(status := Playing)]
      && e.sent == Broadcast(rooms[data.roomId].players, open, GameStarted(data.roomId))
    ensures RegistryValid(rooms) ==> RegistryValid(e.rooms)
  {
    if data.roomId !in rooms then
      Effect(rooms, [])
    else
      var room := rooms[data.roomId];
      var owner := FindOwner(room.players);
      if owner.None? || owner.value.ws != ws then
        Effect(rooms, [])
      else
        Effect(rooms[data.roomId := room.(status := Playing)], Broadcast(room.players, open, GameStarted(data.roomId)))
  }

  /** The dispatcher: one of the three handlers by `type`, and nothing at all for any other type. */
  function MessageEffect(rooms: map<RoomId, Room>, ws: ConnId, data: Request, open: set<ConnId>): (e: Effect)
    ensures data.kind == CreateRoomKind ==> e == CreateRoomEffect(rooms, ws, data)
    ensures data.kind == JoinRoomKind ==> e == JoinRoomEffect(rooms, ws, data, open)
    ensures data.kind == StartGameKind ==> e == StartGameEffect(rooms, ws, data, open)
    ensures data.kind != CreateRoomKind && data.kind != JoinRoomKind && data.kind != StartGameKind ==> e == Effect(rooms, [])
    ensures RegistryValid(rooms) ==> RegistryValid(e.rooms)
    ensures forall k :: k != data.roomId ==> (k in e.rooms <==> k in rooms)
    ensures forall k :: k != data.roomId && k in rooms ==> e.rooms[k] == rooms[k]
  {
    if data.kind == CreateRoomKind then CreateRoomEffect(rooms, ws, data)
    else if data.kind == JoinRoomKind then JoinRoomEffect(rooms, ws, data, open)
    else if data.kind == StartGameKind then StartGameEffect(rooms, ws, data, open)
    else Effect(rooms, [])
  }

  // ---------------------------------------------------------------------------
  // Broadcast and owner lookup
  // ---------------------------------------------------------------------------

  /** A broadcast over two groups of players is the broadcast over the first, then over the second. */
  lemma {:induction false} BroadcastAppend(ps: seq<Player>, qs: seq<Player>, open: set<ConnId>, msg: Message)
    ensures Broadcast(ps + qs, open, msg) == Broadcast(ps, open, msg) + Broadcast(qs, open, msg)
    decreases |qs|
  {
    if qs == [] {
      assert ps + qs == ps;
    } else {
      var init := qs[..|qs| - 1];
      assert (ps + qs)[..|ps + qs| - 1] == ps + init;
      BroadcastAppend(ps, init, open, msg);
    }
  }

  /** A broadcast reaches exactly the open connections of the players, each with the broadcast message. */
  lemma {:induction false} BroadcastRecipients(ps: seq<Player>, open: set<ConnId>, msg: Message, o: Outbound)
    ensures o in Broadcast(ps, open, msg) <==>
      o.msg == msg && o.to in open && exists i :: 0 <= i < |ps| && ps[i].ws == o.to
    decreases |ps|
  {
    if ps != [] {
      var init := ps[..|ps| - 1];
      BroadcastRecipients(init, open, msg, o);
      if exists i :: 0 <= i < |ps| && ps[i].ws == o.to {
        var i :| 0 <= i < |ps| && ps[i].ws == o.to;
        if i < |init| { assert init[i] == ps[i]; }
      }
      if exists i :: 0 <= i < |init| && init[i].ws == o.to {
        var i :| 0 <= i < |init| && init[i].ws == o.to;
        assert ps[i] == init[i];
      }
    }
  }

  /** When every player's connection is open, the i-th message goes to the i-th player. */
  lemma {:induction false} BroadcastAllOpen(ps: seq<Player>, open: set<ConnId>, msg: Message)
    requires forall i :: 0 <= i < |ps| ==> ps[i].ws in open
    ensures |Broadcast(ps, open, msg)| == |ps|
    ensures forall i :: 0 <= i < |ps| ==> Broadcast(ps, open, msg)[i] == Outbound(ps[i].ws, msg)
    decreases |ps|
  {
    if ps != [] {
      var init := ps[..|ps| - 1];
      assert forall i :: 0 <= i < |init| ==> init[i].ws in open by {
        forall i | 0 <= i < |init| ensures init[i].ws in open { assert init[i] == ps[i]; }
      }
      BroadcastAllOpen(init, open, msg);
    }
  }

  /** In a well-formed room the owner found for start_game is the creator, at index 0. */
  lemma OwnerIsFirst(id: RoomId, r: Room)
    requires WellFormedRoom(id, r)
    ensures FindOwner(r.players) == Some(r.players[0])
  {
  }

  // ---------------------------------------------------------------------------
  // Properties of the handlers
  // ---------------------------------------------------------------------------

  /** A successful join keeps every earlier player in place and adds one blue non-owner at the end. */
  lemma JoinAppendsOnePlayer(rooms: map<RoomId, Room>, ws: ConnId, data: Request, open: set<ConnId>)
    requires CanJoin(rooms, data.roomId)
    ensures var before := rooms[data.roomId].players;
      var after := JoinRoomEffect(rooms, ws, data, open).rooms[data.roomId];
      && |after.players| == |before| + 1
      && after.players[..|before|] == before
      && after.players[|before|] == Player(data.playerId, ws, false, JoinerColor)
      && after.status == rooms[data.roomId].status
  {
    var before := rooms[data.roomId].players;
    assert (before + [Joiner(data, ws)])[..|before|] == before;
  }

  /**
   * After a successful join the requester is answered first with the whole
   * new list; every later message is player_joined with that same list,
   * addressed to an open member, and every open member gets one.
   */
  lemma JoinNotifiesRoom(rooms: map<RoomId, Room>, ws: ConnId, data: Request, open: set<ConnId>)
    requires CanJoin(rooms, data.roomId)
    ensures var e := JoinRoomEffect(rooms, ws, data, open);
      var players := e.rooms[data.roomId].players;
      var announce := PlayerJoined(data.roomId, Project(players));
      && |e.sent| >= 1
      && e.sent[0] == Outbound(ws, RoomJoinedOk(data.roomId, Project(players)))
      && (forall k :: 1 <= k < |e.sent| ==> e.sent[k].msg == announce && e.sent[k].to in open)
      && (forall i :: 0 <= i < |players| && players[i].ws in open ==> Outbound(players[i].ws, announce) in e.sent[1..])
  {
    var e := JoinRoomEffect(rooms, ws, data, open);
    var players := e.rooms[data.roomId].players;
    var announce := PlayerJoined(data.roomId, Project(players));
    assert e.sent[1..] == Broadcast(players, open, announce);
    forall i | 0 <= i < |players| && players[i].ws in open
      ensures Outbound(players[i].ws, announce) in e.sent[1..]
    {
      BroadcastRecipients(players, open, announce, Outbound(players[i].ws, announce));
    }
  }

  /** A full room refuses the join and keeps its player list. */
  lemma JoinFullRoomKeepsPlayers(rooms: map<RoomId, Room>, ws: ConnId, data: Request, open: set<ConnId>)
    requires RegistryValid(rooms) && data.roomId in rooms && |rooms[data.roomId].players| == MaxPlayers
    ensures var e := JoinRoomEffect(rooms, ws, data, open);
      && e.sent == [Outbound(ws, RoomJoinFailed(RoomFull))]
      && |e.rooms[data.roomId].players| == MaxPlayers
  {
  }

  /** In a valid registry, start_game changes something or sends something only when asked by the creator's connection. */
  lemma StartGameOnlyByCreator(rooms: map<RoomId, Room>, ws: ConnId, data: Request, open: set<ConnId>)
    requires RegistryValid(rooms)
    ensures var e := StartGameEffect(rooms, ws, data, open);
      e != Effect(rooms, []) ==> data.roomId in rooms && ws == rooms[data.roomId].players[0].ws
    ensures data.roomId in rooms && ws == rooms[data.roomId].players[0].ws ==>
      StartGameEffect(rooms, ws, data, open).rooms[data.roomId].status == Playing
  {
    if data.roomId in rooms {
      OwnerIsFirst(data.roomId, rooms[data.roomId]);
    }
  }

  /**
   * start_game does not look at the status: a second start by the owner
   * leaves the registry as the first left it and announces the start again.
   */
  lemma StartGameTwiceRebroadcasts(rooms: map<RoomId, Room>, ws: ConnId, data: Request, open: set<ConnId>)
    requires IsOwnerConnection(rooms, data.roomId, ws)
    ensures var first := StartGameEffect(rooms, ws, data, open);
      var second := StartGameEffect(first.rooms, ws, data, open);
      && second.rooms == first.rooms
      && second.sent == first.sent
  {
    var first := StartGameEffect(rooms, ws, data, open);
    assert first.rooms[data.roomId].players == rooms[data.roomId].players;
    assert IsOwnerConnection(first.rooms, data.roomId, ws);
  }

  /**
   * Every message a request sends goes to the requester or to a connection
   * of a player of the room the request names.
   */
  lemma RecipientsAreMembers(rooms: map<RoomId, Room>, ws: ConnId, data: Request, open: set<ConnId>)
    ensures var e := MessageEffect(rooms, ws, data, open);
      forall o :: o in e.sent ==>
        || o.to == ws
        || (data.roomId in e.rooms && exists i :: 0 <= i < |e.rooms[data.roomId].players| && e.rooms[data.roomId].players[i].ws == o.to)
  {
    var e := MessageEffect(rooms, ws, data, open);
    forall o | o in e.sent
      ensures
        || o.to == ws
        || (data.roomId in e.rooms && exists i :: 0 <= i < |e.rooms[data.roomId].players| && e.rooms[data.roomId].players[i].ws == o.to)
    {
      if data.kind == JoinRoomKind && CanJoin(rooms, data.roomId) {
        var players := e.rooms[data.roomId].players;
        var announce := PlayerJoined(data.roomId, Project(players));
        if o != e.sent[0] {
          assert o in Broadcast(players, open, announce);
          BroadcastRecipients(players, open, announce, o);
        }
      } else if data.kind == StartGameKind && IsOwnerConnection(rooms, data.roomId, ws) {
        BroadcastRecipients(rooms[data.roomId].players, open, GameStarted(data.roomId), o);
      }
    }
  }

  /**
   * A create_room followed by a join_room for the same code succeeds with
   * the two-entry list, creator first as owner, whatever the registry held.
   */
  lemma CreateThenJoin(rooms: map<RoomId, Room>, a: ConnId, b: ConnId, create: Request, join: Request, open: set<ConnId>)
    requires join.roomId == create.roomId
    ensures var created := CreateRoomEffect(rooms, a, create);
      var joined := JoinRoomEffect(created.rooms, b, join, open);
      joined.sent[0] == Outbound(b, RoomJoinedOk(create.roomId, [PlayerView(create.playerId, true), PlayerView(join.playerId, false)]))
  {
    var created := CreateRoomEffect(rooms, a, create);
    var players := [Player(create.playerId, a, true, OwnerColor), Joiner(join, b)];
    assert created.rooms[create.roomId].players + [Joiner(join, b)] == players;
    assert Project(players) == [PlayerView(create.playerId, true), PlayerView(join.playerId, false)];
  }

  /**
   * The whole exchange of a two-player game: A creates room "ABC123", B joins
   * it, A starts it, and both connections stay open.
   */
  lemma EndToEndScenario(a: ConnId, b: ConnId)
    requires a != b
    ensures var open := {a, b};
      var code := "ABC123";
      var list := [PlayerView("p1", true), PlayerView("p2", false)];
      var created := MessageEffect(map[], a, Request(CreateRoomKind, code, "p1"), open);
      var joined := MessageEffect(created.rooms, b, Request(JoinRoomKind, code, "p2"), open);
      var started := MessageEffect(joined.rooms, a, Request(StartGameKind, code, ""), open);
      && created.sent == [Outbound(a, RoomCreated(code))]
      && joined.sent == [Outbound(b, RoomJoinedOk(code, list)), Outbound(a, PlayerJoined(code, list)), Outbound(b, PlayerJoined(code, list))]
      && started.sent == [Outbound(a, GameStarted(code)), Outbound(b, GameStarted(code))]
      && started.rooms[code].status == Playing
      && |started.rooms[code].players| == 2
  {
    var open := {a, b};
    var code := "ABC123";
    var list := [PlayerView("p1", true), PlayerView("p2", false)];
    var create := Request(CreateRoomKind, code, "p1");
    var join := Request(JoinRoomKind, code, "p2");
    var created := MessageEffect(map[], a, create, open);
    var joined := MessageEffect(created.rooms, b, join, open);
    CreateThenJoin(map[], a, b, create, join, open);
    var players := joined.rooms[code].players;
    assert players == [Player("p1", a, true, OwnerColor), Player("p2", b, false, JoinerColor)];
    BroadcastAllOpen(players, open, PlayerJoined(code, list));
    BroadcastAllOpen(players, open, GameStarted(code));
  }

  // ---------------------------------------------------------------------------
  // The server object
  // ---------------------------------------------------------------------------

  /**
   * The server's process-wide registry `rooms`, and the sequence of every
   * message it has handed to a connection's send, oldest first.
   */
  class Server {
    var rooms: map<RoomId, Room>
    var outbox: seq<Outbound>

    ghost predicate Valid()
      reads this
    {
      RegistryValid(rooms)
    }

    /** The registry starts empty when the process starts. */
    constructor ()
      ensures Valid() && rooms == map[] && outbox == []
    {
      rooms := map[];
      outbox := [];
    }

    /** `ws.send(message)`: hands one message to one connection. */
    method Send(to: ConnId, msg: Message)
      modifies this
      ensures rooms == old(rooms) && outbox == old(outbox) + [Outbound(to, msg)]
    {
      outbox := outbox + [Outbound(to, msg)];
    }

    /** `players.forEach(...)` sending `msg` to each player whose connection is open. */
    method SendToOpen(players: seq<Player>, open: set<ConnId>, msg: Message)
      modifies this
      ensures rooms == old(rooms)
      ensures outbox == old(outbox) + Broadcast(players, open, msg)
    {
      var i := 0;
      while i < |players|
        invariant 0 <= i <= |players|
        invariant rooms == old(rooms)
        invariant outbox == old(outbox) + Broadcast(players[..i], open, msg)
      {
        assert players[..i + 1][..i] == players[..i];
        if players[i].ws in open {
          Send(players[i].ws, msg);
        }
        i := i + 1;
      }
      assert players[..i] == players;
    }

    /** Routes a parsed message by its type; an unknown type changes nothing. */
    method HandleWebSocketMessage(ws: ConnId, data: Request, open: set<ConnId>)
      requires Valid()
      modifies this
      ensures Valid()
      ensures rooms == MessageEffect(old(rooms), ws, data, open).rooms
      ensures outbox == old(outbox) + MessageEffect(old(rooms), ws, data, open).sent
    {
      if data.kind == CreateRoomKind {
        CreateRoom(ws, data);
      } else if data.kind == JoinRoomKind {
        JoinRoom(ws, data, open);
      } else if data.kind == StartGameKind {
        StartGame(ws, data, open);
      }
    }

    method CreateRoom(ws: ConnId, data: Request)
      requires Valid()
      modifies this
      ensures Valid()
      ensures rooms == CreateRoomEffect(old(rooms), ws, data).rooms
      ensures outbox == old(outbox) + CreateRoomEffect(old(rooms), ws, data).sent
    {
      var roomId := data.roomId;
      var room := NewRoom(roomId, data.playerId, ws);
      rooms := rooms[roomId := room];
      Send(ws, RoomCreated(roomId));
    }

    method JoinRoom(ws: ConnId, data: Request, open: set<ConnId>)
      requires Valid()
      modifies this
      ensures Valid()
      ensures rooms == JoinRoomEffect(old(rooms), ws, data, open).rooms
      ensures outbox == old(outbox) + JoinRoomEffect(old(rooms), ws, data, open).sent
    {
      var roomId := data.roomId;
      if roomId !in rooms {
        Send(ws, RoomJoinFailed(RoomNotFound));
        return;
      }
      var room := rooms[roomId];
      if |room.players| >= room.maxPlayers {
        Send(ws, RoomJoinFailed(RoomFull));
        return;
      }
      var newPlayer := Player(data.playerId, ws, false, JoinerColor);
      room := room.(players := room.players + [newPlayer]);
      rooms := rooms[roomId := room];
      Send(ws, RoomJoinedOk(roomId, Project(room.players)));
      SendToOpen(room.players, open, PlayerJoined(roomId, Project(room.players)));
    }

    method StartGame(ws: ConnId, data: Request, open: set<ConnId>)
      requires Valid()
      modifies this
      ensures Valid()
      ensures rooms == StartGameEffect(old(rooms), ws, data, open).rooms
      ensures outbox == old(outbox) + StartGameEffect(old(rooms), ws, data, open).sent
    {
      var roomId := data.roomId;
      if roomId !in rooms {
        return;
      }
      var room := rooms[roomId];
      var owner := FindOwner(room.players);
      if owner.None? || owner.value.ws != ws {
        return;
      }
      rooms := rooms[roomId := room.(status := Playing)];
      SendToOpen(room.players, open, GameStarted(roomId));
    }
  }
}
