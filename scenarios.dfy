/**
 What a client of the server can conclude from the handlers' contracts
 alone: who hears of a join or a play, what a reset leaves behind, and two
 concrete runs with their complete send logs.
 */
module Scenarios {
  import opened Games
  import opened Messages
  import opened Server

  /**
   A play reaches each member of the game once per member entry and reaches
   no client outside the game, whatever other clients are registered.
   */
  method PlayDelivery(s: GameServer, gameId: GameId, ballId: BallId, color: Colour, outsider: ClientId)
    returns (r: Outcome)
    requires s.Valid() && gameId in s.games
    requires forall i :: 0 <= i < |s.games[gameId].clients| ==> s.games[gameId].clients[i].clientId != outsider
    modifies s
    ensures gameId in s.games && |old(s.outbox)| <= |s.outbox| && s.outbox[..|old(s.outbox)|] == old(s.outbox)
    ensures r == Handled && s.games[gameId].clients == old(s.games[gameId].clients)
    ensures ReceivedBy(s.outbox[|old(s.outbox)|..], outsider) == 0
    ensures forall c :: ReceivedBy(s.outbox[|old(s.outbox)|..], c) == MemberCount(s.games[gameId].clients, c)
  {
    r := s.Play(gameId, ballId, color);
    var members := s.games[gameId].clients;
    var sent := s.outbox[|old(s.outbox)|..];
    assert sent == Fanout(members, Broadcast(s.games[gameId]));
    FanoutSkipsNonMembers(members, Broadcast(s.games[gameId]), outsider);
    forall c ensures ReceivedBy(sent, c) == MemberCount(members, c) {
      FanoutDelivery(members, Broadcast(s.games[gameId]), c);
    }
  }

  /**
   A successful join reaches every member of the game after the join, the
   joiner included, once per member entry, and no client outside the game.
   */
  method JoinDelivery(s: GameServer, clientId: ClientId, gameId: GameId, outsider: ClientId)
    returns (r: Outcome)
    requires s.Valid() && gameId in s.games && clientId in s.clients && outsider != clientId
    requires forall i :: 0 <= i < |s.games[gameId].clients| ==> s.games[gameId].clients[i].clientId != outsider
    modifies s
    ensures gameId in s.games && |old(s.outbox)| <= |s.outbox| && s.outbox[..|old(s.outbox)|] == old(s.outbox)
    ensures r == Handled <==> |old(s.games[gameId].clients)| < Capacity
    ensures r == Ignored <==> |old(s.games[gameId].clients)| >= Capacity
    ensures r == Ignored ==> s.games == old(s.games) && s.outbox == old(s.outbox)
    ensures r == Handled ==> s.games[gameId].clients == old(s.games[gameId].clients) + [Member(clientId, Palette[|old(s.games[gameId].clients)|])]
    ensures ReceivedBy(s.outbox[|old(s.outbox)|..], outsider) == 0
    ensures r == Handled ==> ReceivedBy(s.outbox[|old(s.outbox)|..], clientId) >= 1
    ensures forall c :: ReceivedBy(s.outbox[|old(s.outbox)|..], c) == if r == Handled then MemberCount(s.games[gameId].clients, c) else 0
  {
    ghost var before := s.games[gameId].clients;
    r := s.Join(clientId, gameId);
    var members := s.games[gameId].clients;
    var sent := s.outbox[|old(s.outbox)|..];
    if r == Handled {
      JoinedFanout(before, clientId, Palette[|before|], Joined(s.games[gameId], clientId), outsider);
    } else {
      assert sent == [];
    }
  }

  /** The fan-out to a member list that has just gained `clientId`, seen per client. */
  lemma JoinedFanout(before: seq<Member>, clientId: ClientId, color: Colour, msg: Msg, outsider: ClientId)
    requires outsider != clientId
    requires forall i :: 0 <= i < |before| ==> before[i].clientId != outsider
    ensures var members := before + [Member(clientId, color)];
      && ReceivedBy(Fanout(members, msg), outsider) == 0
      && ReceivedBy(Fanout(members, msg), clientId) >= 1
      && forall c :: ReceivedBy(Fanout(members, msg), c) == MemberCount(members, c)
  {
    var members := before + [Member(clientId, color)];
    assert forall i :: 0 <= i < |members| ==> members[i].clientId != outsider;
    FanoutSkipsNonMembers(members, msg, outsider);
    forall c ensures ReceivedBy(Fanout(members, msg), c) == MemberCount(members, c) {
      FanoutDelivery(members, msg, c);
    }
    assert members[|before|].clientId == clientId;
    MemberCountZero(members, clientId);
  }

  /**
   A close followed by a reconnect and a create: the earlier game is gone,
   and the new one has no members and no state.
   */
  method CloseThenCreate(s: GameServer, clientId: ClientId, connection: Connection, newGameId: GameId)
    returns (r: Outcome)
    requires s.Valid()
    modifies s
    ensures r == Handled
    ensures s.games == map[newGameId := NewGame(newGameId)] && s.clients == map[clientId := connection]
    ensures s.games[newGameId].clients == [] && s.games[newGameId].state == None
    ensures |s.outbox| > 0 && s.outbox[|s.outbox| - 1] == Envelope(clientId, Created(NewGame(newGameId)))
  {
    s.Close();
    s.Connect(clientId, connection);
    r := s.Create(clientId, newGameId);
  }

  /** A join into the only game `g`, when it has room and the joiner is registered. */
  method JoinOnlyGame(s: GameServer, clientId: ClientId, gameId: GameId, ghost g: Game)
    requires s.Valid() && s.games == map[gameId := g] && clientId in s.clients && |g.clients| < Capacity
    modifies s
    ensures s.Valid() && s.clients == old(s.clients)
    ensures s.games == map[gameId := Admit(g, clientId).value]
    ensures s.outbox == old(s.outbox) + Fanout(Admit(g, clientId).value.clients, Joined(Admit(g, clientId).value, clientId))
  {
    var r := s.Join(clientId, gameId);
  }

  /** A fresh server on which `a` and `b` connected and `a` created a game. */
  method OpenedGame(a: ClientId, b: ClientId, gameId: GameId) returns (s: GameServer)
    ensures fresh(s) && s.Valid() && a in s.clients && b in s.clients
    ensures s.games == map[gameId := NewGame(gameId)]
    ensures s.outbox == [Envelope(a, Connected(a)), Envelope(b, Connected(b)), Envelope(a, Created(NewGame(gameId)))]
  {
    s := new GameServer();
    s.Connect(a, Connection(0));
    s.Connect(b, Connection(1));
    var r := s.Create(a, gameId);
  }

  /** A fresh server on which `a` and `b` connected, `a` created a game and both joined it. */
  method TwoPlayerGame(a: ClientId, b: ClientId, gameId: GameId) returns (s: GameServer)
    ensures fresh(s) && s.Valid() && a in s.clients && b in s.clients
    ensures var created := NewGame(gameId);
      var one := created.(clients := [Member(a, "Red")]);
      var two := created.(clients := [Member(a, "Red"), Member(b, "Green")]);
      && s.games == map[gameId := two]
      && s.outbox == [
        Envelope(a, Connected(a)), Envelope(b, Connected(b)),
        Envelope(a, Created(created)),
        Envelope(a, Joined(one, a)),
        Envelope(a, Joined(two, b)), Envelope(b, Joined(two, b))]
  {
    var created := NewGame(gameId);
    var one := created.(clients := [Member(a, "Red")]);
    var two := created.(clients := [Member(a, "Red"), Member(b, "Green")]);
    s := OpenedGame(a, b, gameId);
    JoinOnlyGame(s, a, gameId, created);
    assert Admit(one, b) == Some(two) by {
      assert one.clients + [Member(b, Palette[1])] == two.clients;
    }
    JoinOnlyGame(s, b, gameId, one);
    assert Fanout(two.clients, Joined(two, b)) == [Envelope(a, Joined(two, b)), Envelope(b, Joined(two, b))];
  }

  /**
   Two clients connect, the first creates a game, both join, the second
   plays a ball Blue: the complete send log of that run, ending with the
   broadcast of the state {ball: Blue} to both members.
   */
  method TwoPlayerRun(a: ClientId, b: ClientId, gameId: GameId, ballId: BallId)
    returns (sent: seq<Envelope>)
    ensures var created := NewGame(gameId);
      var one := created.(clients := [Member(a, "Red")]);
      var two := created.(clients := [Member(a, "Red"), Member(b, "Green")]);
      var played := two.(state := Some(map[ballId := "Blue"]));
      sent == [
        Envelope(a, Connected(a)), Envelope(b, Connected(b)),
        Envelope(a, Created(created)),
        Envelope(a, Joined(one, a)),
        Envelope(a, Joined(two, b)), Envelope(b, Joined(two, b)),
        Envelope(a, Broadcast(played)), Envelope(b, Broadcast(played))]
  {
    var s := TwoPlayerGame(a, b, gameId);
    var two := NewGame(gameId).(clients := [Member(a, "Red"), Member(b, "Green")]);
    var played := two.(state := Some(map[ballId := "Blue"]));
    var r := s.Play(gameId, ballId, "Blue");
    assert MergeState(None, ballId, "Blue") == map[ballId := "Blue"];
    assert Fanout(played.clients, Broadcast(played)) == [Envelope(a, Broadcast(played)), Envelope(b, Broadcast(played))];
    sent := s.outbox;
  }

  /**
   Three clients fill a game; a fourth join is dropped: the log ends with
   the third join's `joined` sends, and the members stay as they were.
   */
  method FourthJoinRun(a: ClientId, b: ClientId, c: ClientId, d: ClientId, gameId: GameId)
    returns (r: Outcome, members: seq<Member>, sent: seq<Envelope>)
    ensures r == Ignored
    ensures members == [Member(a, "Red"), Member(b, "Green"), Member(c, "Blue")]
    ensures var three := NewGame(gameId).(clients := members);
      && |sent| >= 3
      && sent[|sent| - 3..] == [Envelope(a, Joined(three, c)), Envelope(b, Joined(three, c)), Envelope(c, Joined(three, c))]
  {
    var s := TwoPlayerGame(a, b, gameId);
    var two := NewGame(gameId).(clients := [Member(a, "Red"), Member(b, "Green")]);
    var three := NewGame(gameId).(clients := [Member(a, "Red"), Member(b, "Green"), Member(c, "Blue")]);
    s.Connect(c, Connection(2));
    s.Connect(d, Connection(3));
    assert Admit(two, c) == Some(three) by {
      assert two.clients + [Member(c, Palette[2])] == three.clients;
    }
    JoinOnlyGame(s, c, gameId, two);
    assert Fanout(three.clients, Joined(three, c))
      == [Envelope(a, Joined(three, c)), Envelope(b, Joined(three, c)), Envelope(c, Joined(three, c))];
    r := s.Join(d, gameId);
    members := s.games[gameId].clients;
    sent := s.outbox;
  }
}
