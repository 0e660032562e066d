/**
 The websocket server's state machine: the registry of connected clients,
 the registry of games, and the handlers for connect, create, join, play and
 close, with every `connection.send` recorded in an outbox in send order.
 */
module Server {
  import opened Games
  import opened Messages

  /** The channel the transport hands over on accept; only its identity matters here. */
  datatype Connection = Connection(socket: nat)

  /** The lookups that make the source throw out of its message handler. */
  datatype Error = UnknownClient(clientId: ClientId) | UnknownGame(gameId: GameId)

  /** What became of one inbound event. */
  datatype Outcome = Handled | Ignored | Failed(error: Error)

  /** An inbound message, by the value of its `method` field. */
  datatype Request =
    | CreateRequest(clientId: ClientId)
    | JoinRequest(clientId: ClientId, gameId: GameId)
    | PlayRequest(gameId: GameId, ballId: BallId, color: Colour)
    | OtherRequest(name: string)

  /** Every member of the list is a registered client. */
  predicate Registered(members: seq<Member>, clients: map<ClientId, Connection>)
  {
    forall i :: 0 <= i < |members| ==> members[i].clientId in clients
  }

  /**
   The forEach over the registered client ids at a close: one `restart` per
   id, each id once, in an order the model leaves open.
   */
  method RestartRound(ids: set<ClientId>) returns (sent: seq<Envelope>)
    ensures |sent| == |ids|
    ensures IsRestartRound(sent, ids)
  {
    var pending := ids;
    sent := [];
    while pending != {}
      invariant RoundSoFar(sent, pending, ids)
      invariant |sent| + |pending| == |ids|
      decreases pending
    {
      var clientId :| clientId in pending;
      RoundStep(sent, pending, ids, clientId);
      sent := sent + [Envelope(clientId, Restart)];
      pending := pending - {clientId};
    }
  }

  class GameServer {
    /** allClients: client id to its connection. */
    var clients: map<ClientId, Connection>
    /** allGames: game id to its game record. */
    var games: map<GameId, Game>
    /** The id of the last game made; it survives a close, as the global does. */
    var lastGameId: Option<GameId>
    /** Every send so far, oldest first. */
    var outbox: seq<Envelope>

    /**
     Each game is filed under its own id, keeps its ball count, is coloured
     by join position within capacity and has only registered members; and
     at most one game exists, the last one made.
     */
    ghost predicate Valid()
      reads this
    {
      && (forall g :: g in games ==>
            && games[g].id == g
            && games[g].balls == InitialBalls
            && WellColoured(games[g].clients)
            && Registered(games[g].clients, clients))
      && (games != map[] ==> lastGameId.Some? && games.Keys == {lastGameId.value})
    }

    /** The server at start-up: both registries empty, nothing sent. */
    constructor ()
      ensures Valid()
      ensures clients == map[] && games == map[] && lastGameId == None && outbox == []
    {
      clients := map[];
      games := map[];
      lastGameId := None;
      outbox := [];
    }

    /** A connection arrives: register it under the new id and tell it that id. */
    method Connect(clientId: ClientId, connection: Connection)
      requires Valid()
      modifies this
      ensures Valid()
      ensures clients == old(clients)[clientId := connection]
      ensures games == old(games) && lastGameId == old(lastGameId)
      ensures outbox == old(outbox) + [Envelope(clientId, Connected(clientId))]
    {
      clients := clients[clientId := connection];
      outbox := outbox + [Envelope(clientId, Connected(clientId))];
    }

    /**
     The outcome of a create request: a new game only when no game exists,
     and a `created` message with the current game to the requester alone.
     */
    twostate predicate CreateSpec(clientId: ClientId, newGameId: GameId, r: Outcome)
      reads this
    {
      && clients == old(clients)
      && if clientId !in old(clients) then
           && r == Failed(UnknownClient(clientId))
           && games == old(games) && lastGameId == old(lastGameId) && outbox == old(outbox)
         else
           && r == Handled
           && (if old(games) == map[] then
                 games == map[newGameId := NewGame(newGameId)] && lastGameId == Some(newGameId)
               else
                 games == old(games) && lastGameId == old(lastGameId))
           && lastGameId.Some? && lastGameId.value in games
           && outbox == old(outbox) + [Envelope(clientId, Created(games[lastGameId.value]))]
    }

    method Create(clientId: ClientId, newGameId: GameId) returns (r: Outcome)
      requires Valid()
      modifies this
      ensures Valid() && CreateSpec(clientId, newGameId, r)
    {
      if clientId !in clients {
        return Failed(UnknownClient(clientId));
      }
      if |games| == 0 {
        games := games[newGameId := NewGame(newGameId)];
        lastGameId := Some(newGameId);
      }
      outbox := outbox + [Envelope(clientId, Created(games[lastGameId.value]))];
      r := Handled;
    }

    /**
     The outcome of a join request: a full game is left as it is and nobody
     hears of it; otherwise the joiner is admitted and a `joined` message
     with the updated game goes to exactly that game's members.
     */
    twostate predicate JoinSpec(clientId: ClientId, gameId: GameId, r: Outcome)
      reads this
    {
      && clients == old(clients) && lastGameId == old(lastGameId)
      && if gameId !in old(games) then
           r == Failed(UnknownGame(gameId)) && games == old(games) && outbox == old(outbox)
         else if |old(games)[gameId].clients| >= Capacity then
           r == Ignored && games == old(games) && outbox == old(outbox)
         else if clientId !in old(clients) then
           r == Failed(UnknownClient(clientId)) && games == old(games) && outbox == old(outbox)
         else
           var joined := Admit(old(games)[gameId], clientId).value;
           && r == Handled
           && games == old(games)[gameId := joined]
           && outbox == old(outbox) + Fanout(joined.clients, Joined(joined, clientId))
    }

    method Join(clientId: ClientId, gameId: GameId) returns (r: Outcome)
      requires Valid()
      modifies this
      ensures Valid() && JoinSpec(clientId, gameId, r)
    {
      if gameId !in games {
        return Failed(UnknownGame(gameId));
      }
      var requested := games[gameId];
      var color := PlayerColor(|requested.clients|);
      if |requested.clients| >= Capacity {
        return Ignored;
      }
      if clientId !in clients {
        return Failed(UnknownClient(clientId));
      }
      requested := requested.(clients := requested.clients + [Member(clientId, color.value)]);
      assert requested == Admit(games[gameId], clientId).value;
      games := games[gameId := requested];
      SendToMembers(requested.clients, Joined(requested, clientId));
      r := Handled;
    }

    /**
     The outcome of a play request: the ball's colour is merged into the
     game's state, the member list stays, and a `broadcast` with the updated
     game goes to exactly that game's members.
     */
    twostate predicate PlaySpec(gameId: GameId, ballId: BallId, color: Colour, r: Outcome)
      reads this
    {
      && clients == old(clients) && lastGameId == old(lastGameId)
      && if gameId !in old(games) then
           r == Failed(UnknownGame(gameId)) && games == old(games) && outbox == old(outbox)
         else
           var played := old(games)[gameId].(state := Some(MergeState(old(games)[gameId].state, ballId, color)));
           && r == Handled
           && games == old(games)[gameId := played]
           && outbox == old(outbox) + Fanout(played.clients, Broadcast(played))
    }

    method Play(gameId: GameId, ballId: BallId, color: Colour) returns (r: Outcome)
      requires Valid()
      modifies this
      ensures Valid() && PlaySpec(gameId, ballId, color, r)
    {
      if gameId !in games {
        return Failed(UnknownGame(gameId));
      }
      var gameState := games[gameId].state;
      if gameState.None? {
        gameState := Some(map[]);
      }
      gameState := Some(gameState.value[ballId := color]);
      games := games[gameId := games[gameId].(state := gameState)];
      BroadcastGameState(gameId);
      r := Handled;
    }

    /** Send the current game record to every member of that game, and to no one else. */
    method BroadcastGameState(gameId: GameId)
      requires Valid() && gameId in games
      modifies this`outbox
      ensures outbox == old(outbox) + Fanout(games[gameId].clients, Broadcast(games[gameId]))
    {
      var game := games[gameId];
      SendToMembers(game.clients, Broadcast(game));
    }

    /** The forEach over a member list: one send of `msg` per member, in member order. */
    method SendToMembers(members: seq<Member>, msg: Msg)
      requires Registered(members, clients)
      modifies this`outbox
      ensures outbox == old(outbox) + Fanout(members, msg)
    {
      for i := 0 to |members|
        invariant outbox == old(outbox) + Fanout(members[..i], msg)
      {
        var recipient := members[i].clientId;
        FanoutSnoc(members, i, msg);
        outbox := outbox + [Envelope(recipient, msg)];
      }
      assert members[..|members|] == members;
    }

    /**
     A connection closes: every client registered at that moment gets one
     `restart`, then both registries are emptied.
     */
    method Close()
      requires Valid()
      modifies this
      ensures Valid()
      ensures clients == map[] && games == map[] && lastGameId == old(lastGameId)
      ensures |outbox| == |old(outbox)| + |old(clients).Keys|
      ensures outbox[..|old(outbox)|] == old(outbox)
      ensures IsRestartRound(outbox[|old(outbox)|..], old(clients).Keys)
    {
      var sent := RestartRound(clients.Keys);
      outbox := outbox + sent;
      assert outbox[|old(outbox)|..] == sent;
      games := map[];
      clients := map[];
    }

    /** One inbound message, dispatched on its `method`; an unknown method does nothing. */
    method Handle(request: Request, newGameId: GameId) returns (r: Outcome)
      requires Valid()
      modifies this
      ensures Valid()
      ensures match request
        case CreateRequest(c) => CreateSpec(c, newGameId, r)
        case JoinRequest(c, g) => JoinSpec(c, g, r)
        case PlayRequest(g, b, color) => PlaySpec(g, b, color, r)
        case OtherRequest(_) => r == Ignored && unchanged(this)
    {
      match request
      case CreateRequest(c) =>
        r := Create(c, newGameId);
      case JoinRequest(c, g) =>
        r := Join(c, g);
      case PlayRequest(g, b, color) =>
        r := Play(g, b, color);
      case OtherRequest(_) =>
        r := Ignored;
    }
  }
}
