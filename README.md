# Ball-colour game server: session registry and selective broadcast

This project models the websocket server of a small multiplayer game. Clients
connect. One of them creates the game. Up to three of them join it, and each
member is given a colour by the order in which it joined. Members then colour
balls, and every play is broadcast to the members of that game only. When any
connection closes, every client is told to restart and both registries are
emptied; only the id of the last game made survives.

The model is a class, `Server.GameServer`, with four fields:

- `clients`: the map from client id to connection (`allClients`).
- `games`: the map from game id to game record (`allGames`).
- `lastGameId`: the implicit global `gameId`. The create handler writes it only when it makes a game, and it reads it for every `created` reply. A close does not reset it.
- `outbox`: every `connection.send`, in send order, as a pair of recipient client id and message.

Its methods are the handlers: connect, create, join, play, the broadcast
helper and close. `Handle` dispatches an inbound message on its `method`
field.

`Valid()` is the invariant that every handler keeps:

- each game is filed under its own id;
- each game has 20 balls;
- each game's member list is within capacity, and its i-th member has the i-th palette colour;
- every member is a registered client;
- at most one game exists, and it is the one `lastGameId` names.

The game record, its members and the ball-colour state are values
(module `Games`). Each game rule is a function with its contract:

- `Admit` is one join.
- `MergeState` is one play's merge.

The lemmas about these functions state the properties that hold across
calls: the colours given by join order, idempotence and last-write-wins.
The messages and the routing rules are in module `Messages`:

- `Fanout` is the send loop over a member list.
- `ReceivedBy` counts the sends that go to one client.
- `IsRestartRound` describes the sends of a close.

The handlers' contracts tie the new `outbox` to these functions. The lemmas
then show that a fan-out reaches each member once per member entry and no
one else, and that a close reaches each registered client exactly once.
Module `Scenarios` combines the handlers' contracts into client-level facts
and into two complete runs.

Ids are opaque strings supplied by the caller. The connect handler's client
id and the create handler's new game id are parameters, because the source
draws them from a random generator. A connection is an opaque handle.

The source has five lookups on ids that it does not check. For four of them
the model returns `Failed(UnknownGame)` or `Failed(UnknownClient)` and changes
no state:

- join and play with an unknown game id;
- create with an unregistered requester;
- join with an unregistered joiner into a game that has room.

The fifth is the broadcast helper's lookup of its game id. `BroadcastGameState`
requires a known id instead, and its only caller, `Play`, has already failed
for an unknown one.

## Model

| member | source | states |
|---|---|---|
| `Games.Admit` | server.js:139-150 | a join into a game with 3 or more members is refused; otherwise exactly one member, the joiner with the colour of its position (0 Red, 1 Green, 2 Blue), is appended, the earlier members and the id, balls and state stay, and a correctly coloured list within capacity stays so |
| `Games.MergeState` | server.js:171-177 | a null state counts as empty; afterwards the played ball has the played colour, every other ball keeps its colour and no ball is lost |
| `Games.MergeStateAsWritten` | server.js:171-177 | the merge as the plain-object assignment performs it: the ball id `__proto__` stores no key and leaves the base state, every other ball merges as in `MergeState` |
| `Games.ProtoKeyNotStored` | server.js:176-177 | playing `__proto__` Blue on a null state leaves the handler's state empty, where the merge would hold `__proto__` Blue |
| `Games.MergeIdempotent` | server.js:176-177 | playing the same ball and colour twice gives the state of playing it once |
| `Games.MergeLastWins` | server.js:176-177 | playing one ball with two colours in turn leaves only the later colour |
| `Games.JoinOrder` | server.js:139-150 | after any sequence of joins, the earlier members stay, the first joiners up to capacity are admitted in request order with the colour of their position, every later join is refused, and the list stays within 3 and correctly coloured |
| `Games.JoinOrderFromNew` | server.js:139-150 | in a freshly created game the k-th admitted joiner has the k-th palette colour and at most three are admitted |
| `Messages.Fanout` | server.js:51-53 | the forEach over a member list sends one message per member entry, the i-th send to the i-th member, all carrying the same message |
| `Messages.FanoutDelivery` | server.js:44-54 | a fan-out reaches each client exactly as often as it has member entries in the game |
| `Messages.FanoutSkipsNonMembers` | server.js:32-38 | a client that is not a member of the game, for example a member of another game, receives nothing from its broadcast |
| `Messages.FanoutOncePerMember` | server.js:159-161 | when no client joined twice, every member of the game receives the fan-out exactly once |
| `Messages.RestartReachesEachOnce` | server.js:95-97 | the restart round of a close reaches every client registered at that moment exactly once and no other client |
| `Server.RestartRound` | server.js:95-97 | the loop over the registered ids sends one `restart` to each id and to no other, no id twice |
| `Server.GameServer.constructor` | server.js:21-22 | both registries start empty, no game id is set and nothing has been sent |
| `Server.GameServer.Connect` | server.js:63-73 | the new id is registered with its connection, the games stay, and a single `connected` message with that id goes to the new client only |
| `Server.GameServer.Create` | server.js:109-131 | a game `{id, balls 20, no members, null state}` is made and becomes the last game exactly when no game exists; otherwise the games stay; one `created` message with the last game goes to the requester only |
| `Server.GameServer.Join` | server.js:133-162 | an unknown game fails and a full game is left as it is with nothing sent; otherwise the game becomes `Admit` of it, and a `joined` message with the updated game and the joiner's id goes to exactly its members, joiner included, in member order |
| `Server.GameServer.Play` | server.js:164-185 | the game's state becomes `MergeState` of its old state; its members, id and balls stay; the other games stay; a `broadcast` with the updated game goes to exactly its members in member order |
| `Server.GameServer.BroadcastGameState` | server.js:44-54 | the outbox grows by exactly the fan-out of the game's current record to its members |
| `Server.GameServer.SendToMembers` | server.js:159-161 | the outbox grows by exactly one send per member entry, in member order, and by nothing else |
| `Server.GameServer.Close` | server.js:88-102 | one `restart` goes to every client registered at that moment, no client twice, and then both registries are empty; the last game id is kept |
| `Server.GameServer.Handle` | server.js:104-187 | a `create`, `join` or `play` message behaves as its handler does; any other method changes nothing and sends nothing |
| `Scenarios.PlayDelivery` | server.js:164-185 | a play keeps the game's members, reaches each member once per member entry, and reaches no client outside the game |
| `Scenarios.JoinDelivery` | server.js:141-161 | a join into a full game changes nothing and sends nothing; a join with room appends the joiner with its positional colour and reaches the members after the join, joiner included, and no client outside the game |
| `Scenarios.JoinedFanout` | server.js:152-161 | the fan-out to a member list that has just gained the joiner reaches the joiner, reaches each client once per member entry, and skips clients outside the list |
| `Scenarios.JoinOnlyGame` | server.js:133-162 | a join into the only game, when it has room, makes the game `Admit` of it and grows the outbox by the `joined` fan-out |
| `Scenarios.CloseThenCreate` | server.js:88-131 | after a close, a reconnect and a create, the only game is a fresh one with no members and null state, and the requester receives `created` with it |
| `Scenarios.OpenedGame` | server.js:109-131 | two clients connect and one creates: the only game is a fresh one, and the log is the two `connected` sends then `created` to the creator |
| `Scenarios.TwoPlayerGame` | server.js:109-162 | two clients connect, one creates, both join: the game holds Red then Green, and the complete send log is known |
| `Scenarios.TwoPlayerRun` | server.js:164-185 | after that, the second member plays a ball Blue: both members, and only they, receive a `broadcast` whose state is that one ball Blue |
| `Scenarios.FourthJoinRun` | server.js:141-145 | with three members already in the game, a fourth join is `Ignored`, the send log still ends with the third join's `joined` sends to the three members, and the members stay Red, Green, Blue |

## Left out

- Random id generation (`S4`, `guid`, server.js:25-29) is left out because it uses floating-point randomness. Client ids and new game ids are parameters supplied by the caller. A colliding client id overwrites the earlier connection, as the source's assignment does.
- The HTTP page server, the websocket server's construction and the accept step (server.js:1-14, 57-61) are transport plumbing and are not modelled.
- JSON parsing and serialisation are not modelled. Inbound messages are the `Request` datatype and outbound messages the `Msg` datatype. A message that is not valid JSON, or that lacks a field, is out of scope.
- Logging and the `open` handler (server.js:76) are not modelled.
- `Server.GameServer.Create`, `Server.GameServer.Join`, `Server.GameServer.Play` and `Server.GameServer.Handle`: the source throws on an unknown id. This ends the process part-way through the handler. In create, the game has already been made if none existed before. In join, the member has been appended and the earlier members have been sent `joined`. The model does not model this partial work or the crash. It reports `Failed` and changes nothing.
- `Games.MergeState` and `Server.GameServer.Play`: the source keeps the state in a plain JavaScript object, and assigning the ball id `__proto__` to it hits the inherited prototype setter, which ignores a string, so the source stores no key for that ball. The model merges every ball id, `__proto__` included, as a map does; `Games.MergeStateAsWritten` models the source's behaviour (see Findings).
- `Server.GameServer.Close` and `Server.RestartRound`: the source sends the `restart` messages in the insertion order of `allClients`. The model keeps no insertion order, so it fixes each client's share of the round but not the order of the sends.
- Game records are values in the `games` map. The handlers replace the record rather than mutating a shared object. Every snapshot is serialised at the moment it is sent, so the contents of every message are unaffected.
- Connections are opaque handles. A send to a connection that has already closed, such as the closing client's own `restart`, is recorded like any other send. What the transport does with it is not modelled.

## Findings

| source | as written | input that shows it | evidently intended | confidence | as-written member | corrected member |
|---|---|---|---|---|---|---|
| server.js:176-177 | `gameState[ballId] = color` on a plain object: for the ball id `__proto__` the inherited prototype setter ignores the string, so no key is stored and the broadcast carries `"state":{}` | `play {gameId, ballId: "__proto__", color: "Blue"}` on a game whose state is null | every played ball is stored with its colour, other balls unchanged (a key-by-key merge) | high, by reading the language rules; not executed | `Games.MergeStateAsWritten`, `Games.ProtoKeyNotStored` | `Games.MergeState`, used by `Server.GameServer.Play` |
