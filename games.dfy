/**
 The session registry's values: a game record, its members and its shared
 ball-colour state, together with the two rules that change a game — a
 capacity-bounded join that colours the newcomer by join position, and a
 key-by-key merge of one ball's colour into the state.
 */
module Games {

  type ClientId = string
  type GameId = string
  type BallId = string
  type Colour = string

  datatype Option<T> = None | Some(value: T)

  /** At most this many members per game. */
  const Capacity: nat := 3
  /** Every game is created with this ball count, and nothing changes it. */
  const InitialBalls: int := 20
  /** The colour of the member in each join position. */
  const Palette: seq<Colour> := ["Red", "Green", "Blue"]

  datatype Member = Member(clientId: ClientId, color: Colour)

  /** A game record: `state` is absent (null) until the first play. */
  datatype Game = Game(id: GameId, balls: int, clients: seq<Member>, state: Option<map<BallId, Colour>>)

  /** The game a create request makes: no members, no state yet. */
  function NewGame(id: GameId): Game
  {
    Game(id, InitialBalls, [], None)
  }

  /** The colour lookup of the join handler; it is undefined from the fourth position on. */
  function PlayerColor(position: nat): Option<Colour>
  {
    if position < |Palette| then Some(Palette[position]) else None
  }

  /** A member list within capacity whose i-th member has the i-th palette colour. */
  predicate WellColoured(members: seq<Member>)
  {
    |members| <= Capacity && forall i :: 0 <= i < |members| ==> members[i].color == Palette[i]
  }

  /**
   One join request against game `g`: a full game refuses it (None);
   otherwise exactly one member, the joiner with the colour of its position,
   goes to the end of the list and nothing else about the game changes.
   */
  function Admit(g: Game, clientId: ClientId): (r: Option<Game>)
    ensures r.None? <==> |g.clients| >= Capacity
    ensures r.Some? ==> r.value.id == g.id && r.value.balls == g.balls && r.value.state == g.state
    ensures r.Some? ==> |r.value.clients| == |g.clients| + 1 && r.value.clients[..|g.clients|] == g.clients
    ensures r.Some? ==> r.value.clients[|g.clients|] == Member(clientId, Palette[|g.clients|])
    ensures r.Some? && WellColoured(g.clients) ==> WellColoured(r.value.clients)
  {
    var color := PlayerColor(|g.clients|);
    if |g.clients| >= Capacity then None
    else Some(g.(clients := g.clients + [Member(clientId, color.value)]))
  }

  /** A state that is still absent counts as the empty map. */
  function BaseState(state: Option<map<BallId, Colour>>): map<BallId, Colour>
  {
    if state.Some? then state.value else map[]
  }

  /**
   The state after one play: `ballId` now has `color`, every other ball keeps
   the colour it had, and no ball is lost.
   */
  function MergeState(state: Option<map<BallId, Colour>>, ballId: BallId, color: Colour): (r: map<BallId, Colour>)
    ensures r.Keys == BaseState(state).Keys + {ballId}
    ensures r[ballId] == color
    ensures forall b :: b in BaseState(state) && b != ballId ==> r[b] == BaseState(state)[b]
  {
    BaseState(state)[ballId := color]
  }

  /**
   The ball id whose assignment on a plain JavaScript object reaches the
   inherited prototype setter instead of storing an own property.
   */
  const ProtoKey: BallId := "__proto__"

  /**
   The merge as the play handler's object assignment performs it: for
   `ProtoKey` the prototype setter ignores a string value, so the state is
   the base state with no key added; every other ball merges as in
   `MergeState`.
   */
  function MergeStateAsWritten(state: Option<map<BallId, Colour>>, ballId: BallId, color: Colour): (r: map<BallId, Colour>)
    ensures ballId == ProtoKey ==> r == BaseState(state)
    ensures ballId != ProtoKey ==> r == MergeState(state, ballId, color)
  {
    if ballId == ProtoKey then BaseState(state) else BaseState(state)[ballId := color]
  }

  /**
   The input on which the handler as written breaks the merge property:
   playing `__proto__` Blue on a null state stores no ball at all, where the
   merge stores `__proto__` with colour Blue.
   */
  lemma ProtoKeyNotStored()
    ensures MergeStateAsWritten(None, ProtoKey, "Blue") == map[]
    ensures ProtoKey !in MergeStateAsWritten(None, ProtoKey, "Blue")
    ensures MergeState(None, ProtoKey, "Blue") == map[ProtoKey := "Blue"]
  {
  }

  /** Playing the same ball and colour twice leaves the state of playing it once. */
  lemma MergeIdempotent(state: Option<map<BallId, Colour>>, ballId: BallId, color: Colour)
    ensures MergeState(Some(MergeState(state, ballId, color)), ballId, color) == MergeState(state, ballId, color)
  {
  }

  /** Playing one ball with two colours in turn keeps only the later colour. */
  lemma MergeLastWins(state: Option<map<BallId, Colour>>, ballId: BallId, first: Colour, second: Colour)
    ensures MergeState(Some(MergeState(state, ballId, first)), ballId, second) == MergeState(state, ballId, second)
  {
  }

  function Min(a: int, b: int): int
  {
    if a <= b then a else b
  }

  /** The game after a sequence of join requests, each refused once the game is full. */
  function JoinAll(g: Game, joiners: seq<ClientId>): Game
    decreases |joiners|
  {
    if joiners == [] then g
    else match Admit(g, joiners[0])
      case None => JoinAll(g, joiners[1..])
      case Some(joined) => JoinAll(joined, joiners[1..])
  }

  /**
   A sequence of joins keeps the members already there, admits the first
   joiners up to capacity in request order, gives each the colour of its
   position and drops every later request.
   */
  lemma {:induction false} JoinOrder(g: Game, joiners: seq<ClientId>)
    requires WellColoured(g.clients)
    decreases |joiners|
    ensures var r := JoinAll(g, joiners);
      && |r.clients| == Min(Capacity, |g.clients| + |joiners|)
      && r.clients[..|g.clients|] == g.clients
      && (forall i :: |g.clients| <= i < |r.clients| ==> r.clients[i] == Member(joiners[i - |g.clients|], Palette[i]))
      && r.id == g.id && r.balls == g.balls && r.state == g.state
      && WellColoured(r.clients)
  {
    if joiners != [] {
      var n := |g.clients|;
      match Admit(g, joiners[0])
      case None =>
        JoinOrder(g, joiners[1..]);
      case Some(joined) =>
        JoinOrder(joined, joiners[1..]);
        var r := JoinAll(joined, joiners[1..]);
        assert r == JoinAll(g, joiners);
        assert r.clients[..n] == r.clients[..n + 1][..n];
        forall i | n <= i < |r.clients|
          ensures r.clients[i] == Member(joiners[i - n], Palette[i])
        {
          if i == n {
            assert r.clients[i] == r.clients[..n + 1][i];
          } else {
            assert joiners[1..][i - (n + 1)] == joiners[i - n];
          }
        }
    }
  }

  /**
   Joins into a freshly created game: the k-th successful joiner gets the
   k-th palette colour, and at most three are admitted.
   */
  lemma JoinOrderFromNew(id: GameId, joiners: seq<ClientId>)
    ensures var r := JoinAll(NewGame(id), joiners);
      && |r.clients| == Min(Capacity, |joiners|)
      && (forall i :: 0 <= i < |r.clients| ==> r.clients[i] == Member(joiners[i], Palette[i]))
      && r.id == id && r.state == None
  {
    JoinOrder(NewGame(id), joiners);
  }
}
