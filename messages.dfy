/**
 Outbound messages and the routing rules that decide who receives them: a
 fan-out to the members of one game, one message per member entry in member
 order, and the restart round that reaches every registered client once.
 */
module Messages {
  import opened Games

  /** The outbound envelopes, one constructor per `method` the server sends. */
  datatype Msg =
    | Connected(clientId: ClientId)
    | Created(game: Game)
    | Joined(game: Game, reqJoinClientId: ClientId)
    | Broadcast(game: Game)
    | Restart

  /** One send: `msg` on the connection of client `to`. */
  datatype Envelope = Envelope(to: ClientId, msg: Msg)

  /** The sends of one forEach over a game's members: the i-th member gets the i-th send. */
  function Fanout(members: seq<Member>, msg: Msg): (r: seq<Envelope>)
    ensures |r| == |members|
    ensures forall i :: 0 <= i < |members| ==> r[i] == Envelope(members[i].clientId, msg)
  {
    if members == [] then []
    else [Envelope(members[0].clientId, msg)] + Fanout(members[1..], msg)
  }

  /** Extending a member list by one member extends its fan-out by that member's send. */
  lemma FanoutSnoc(members: seq<Member>, k: nat, msg: Msg)
    requires k < |members|
    ensures Fanout(members[..k + 1], msg) == Fanout(members[..k], msg) + [Envelope(members[k].clientId, msg)]
  {
    var longer, shorter := Fanout(members[..k + 1], msg), Fanout(members[..k], msg) + [Envelope(members[k].clientId, msg)];
    assert |longer| == |shorter|;
    forall i | 0 <= i < |longer| ensures longer[i] == shorter[i] {
      assert members[..k + 1][i] == members[i];
      if i < k { assert members[..k][i] == members[i]; }
    }
  }

  /** How many of the sends `sent` go to `clientId`. */
  function ReceivedBy(sent: seq<Envelope>, clientId: ClientId): nat
  {
    if sent == [] then 0
    else (if sent[0].to == clientId then 1 else 0) + ReceivedBy(sent[1..], clientId)
  }

  /** How many entries of the member list belong to `clientId`. */
  function MemberCount(members: seq<Member>, clientId: ClientId): nat
  {
    if members == [] then 0
    else (if members[0].clientId == clientId then 1 else 0) + MemberCount(members[1..], clientId)
  }

  /**
   The selective-broadcast rule: a fan-out reaches each client exactly as
   often as it appears in the member list, and no client outside it.
   */
  lemma {:induction false} FanoutDelivery(members: seq<Member>, msg: Msg, clientId: ClientId)
    ensures ReceivedBy(Fanout(members, msg), clientId) == MemberCount(members, clientId)
  {
    if members != [] {
      var r := Fanout(members, msg);
      assert r[1..] == Fanout(members[1..], msg);
      FanoutDelivery(members[1..], msg, clientId);
    }
  }

  /** A client has no member entry exactly when no entry carries its id. */
  lemma {:induction false} MemberCountZero(members: seq<Member>, clientId: ClientId)
    ensures MemberCount(members, clientId) == 0 <==> forall i :: 0 <= i < |members| ==> members[i].clientId != clientId
  {
    if members != [] {
      MemberCountZero(members[1..], clientId);
      assert forall i :: 1 <= i < |members| ==> members[i] == members[1..][i - 1];
    }
  }

  /** Members of another game (clients not in this member list) receive nothing from its fan-out. */
  lemma FanoutSkipsNonMembers(members: seq<Member>, msg: Msg, clientId: ClientId)
    requires forall i :: 0 <= i < |members| ==> members[i].clientId != clientId
    ensures ReceivedBy(Fanout(members, msg), clientId) == 0
  {
    FanoutDelivery(members, msg, clientId);
    MemberCountZero(members, clientId);
  }

  /** A member list in which no client appears twice. */
  predicate DistinctMembers(members: seq<Member>)
  {
    forall i, j :: 0 <= i < j < |members| ==> members[i].clientId != members[j].clientId
  }

  /** When no client joined twice, every member has exactly one member entry. */
  lemma {:induction false} DistinctMemberCount(members: seq<Member>, k: nat)
    requires DistinctMembers(members) && k < |members|
    ensures MemberCount(members, members[k].clientId) == 1
  {
    var tail := members[1..];
    assert forall i :: 0 <= i < |tail| ==> tail[i] == members[i + 1];
    if k == 0 {
      MemberCountZero(tail, members[0].clientId);
    } else {
      DistinctMemberCount(tail, k - 1);
    }
  }

  /** When no client joined twice, every member receives the fan-out exactly once. */
  lemma FanoutOncePerMember(members: seq<Member>, msg: Msg, k: nat)
    requires DistinctMembers(members) && k < |members|
    ensures ReceivedBy(Fanout(members, msg), members[k].clientId) == 1
  {
    FanoutDelivery(members, msg, members[k].clientId);
    DistinctMemberCount(members, k);
  }

  /** The clients that some send in `sent` goes to. */
  function Recipients(sent: seq<Envelope>): set<ClientId>
  {
    set i | 0 <= i < |sent| :: sent[i].to
  }

  lemma RecipientsAppend(sent: seq<Envelope>, e: Envelope)
    ensures Recipients(sent + [e]) == Recipients(sent) + {e.to}
  {
    var longer := sent + [e];
    assert forall i :: 0 <= i < |sent| ==> longer[i] == sent[i];
    assert longer[|sent|] == e;
  }

  predicate DistinctRecipients(sent: seq<Envelope>)
  {
    forall i, j :: 0 <= i < j < |sent| ==> sent[i].to != sent[j].to
  }

  /** The sends of a close: a `restart` to each client of `ids`, one each, to no one else. */
  predicate IsRestartRound(sent: seq<Envelope>, ids: set<ClientId>)
  {
    && (forall i :: 0 <= i < |sent| ==> sent[i].msg == Restart)
    && DistinctRecipients(sent)
    && Recipients(sent) == ids
  }

  /**
   Part of a restart round: `sent` has gone, one `restart` each, to the
   clients of `ids` that are no longer `pending`.
   */
  predicate RoundSoFar(sent: seq<Envelope>, pending: set<ClientId>, ids: set<ClientId>)
  {
    && pending <= ids
    && (forall i :: 0 <= i < |sent| ==> sent[i].msg == Restart)
    && DistinctRecipients(sent)
    && Recipients(sent) !! pending
    && Recipients(sent) + pending == ids
  }

  /** Sending a `restart` to one pending client keeps the round on track. */
  lemma RoundStep(sent: seq<Envelope>, pending: set<ClientId>, ids: set<ClientId>, clientId: ClientId)
    requires RoundSoFar(sent, pending, ids) && clientId in pending
    ensures RoundSoFar(sent + [Envelope(clientId, Restart)], pending - {clientId}, ids)
  {
    var longer := sent + [Envelope(clientId, Restart)];
    RecipientsAppend(sent, Envelope(clientId, Restart));
    assert forall i :: 0 <= i < |sent| ==> longer[i] == sent[i];
    forall i, j | 0 <= i < j < |longer| ensures longer[i].to != longer[j].to {
      if j == |sent| {
        assert longer[i].to in Recipients(sent);
      }
    }
  }

  /** With no client addressed twice, each recipient gets one send and every other client none. */
  lemma {:induction false} DistinctReceivedOnce(sent: seq<Envelope>, clientId: ClientId)
    requires DistinctRecipients(sent)
    ensures ReceivedBy(sent, clientId) == if clientId in Recipients(sent) then 1 else 0
  {
    if sent != [] {
      var tail := sent[1..];
      assert forall i :: 0 <= i < |tail| ==> tail[i] == sent[i + 1];
      DistinctReceivedOnce(tail, clientId);
      assert Recipients(sent) == {sent[0].to} + Recipients(tail) by {
        forall c | c in Recipients(sent) ensures c in {sent[0].to} + Recipients(tail) {
          var i :| 0 <= i < |sent| && sent[i].to == c;
          if i > 0 { assert tail[i - 1].to == c; }
        }
      }
      if sent[0].to == clientId {
        assert clientId !in Recipients(tail);
      }
    }
  }

  /** A close's restart round reaches every registered client exactly once and nobody else. */
  lemma RestartReachesEachOnce(sent: seq<Envelope>, ids: set<ClientId>, clientId: ClientId)
    requires IsRestartRound(sent, ids)
    ensures ReceivedBy(sent, clientId) == if clientId in ids then 1 else 0
  {
    DistinctReceivedOnce(sent, clientId);
  }
}
