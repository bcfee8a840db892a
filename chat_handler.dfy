/** `MyChatHandler`, the handler of the `/chat` endpoint: a registry from
    user id to open session, filled in on connect and never emptied, and the
    roster each newly connected client receives. */
module ChatHandler {
  import opened Wrappers
  import opened Domain
  import opened UserRepo
  import opened LongParse

  /** The roster for `users`: each user paired with whether its id is already
      a key of `sessions`, in the order of `users`. */
  function Roster(users: seq<User>, sessions: map<int, Session>): (r: seq<UserResponse>)
    ensures |r| == |users|
    ensures forall i :: 0 <= i < |users| ==> r[i].user == users[i]
    ensures forall i :: 0 <= i < |users| ==> (r[i].online <==> users[i].id in sessions)
  {
    if users == [] then []
    else [UserResponse(users[0], users[0].id in sessions)] + Roster(users[1..], sessions)
  }

  /** The roster sent to user `id` lists exactly the other users of the table,
      and flags as online exactly those already registered. */
  lemma RosterOfOthers(table: seq<User>, sessions: map<int, Session>, id: int, u: User)
    ensures var entries := Roster(FindAll(table, id), sessions);
      (exists e :: e in entries && e.user == u) <==> u in table && u.id != id
    ensures var entries := Roster(FindAll(table, id), sessions);
      forall e :: e in entries ==> e.user.id != id && (e.online <==> e.user.id in sessions)
  {
  }

  /** How a connect callback ended. */
  datatype ConnectOutcome =
    | NoUserId            // no `userId` header: the callback did nothing
    | Registered(id: int) // the roster was sent and the session registered
    | Failed(error: HandlerError)

  class MyChatHandler {
    /** The registry: user id to that user's most recent session. */
    var sessions: map<int, Session>
    /** Every frame this handler sent, in sending order. */
    var outbox: seq<Frame>

    constructor ()
      ensures sessions == map[] && outbox == []
    {
      sessions := map[];
      outbox := [];
    }

    /** A new connection. `userIdHeader` is the first `userId` handshake
        header, `users` the `users` table at that moment, and `sendOk` whether
        the transport accepts the roster frame. */
    method AfterConnectionEstablished(session: Session, userIdHeader: Option<string>,
                                      users: seq<User>, sendOk: bool)
      returns (r: ConnectOutcome)
      modifies this
      ensures userIdHeader.None? ==>
        r == NoUserId && sessions == old(sessions) && outbox == old(outbox)
      ensures userIdHeader.Some? && ParseLong(userIdHeader.value).None? ==>
        r == Failed(NumberFormat) && sessions == old(sessions) && outbox == old(outbox)
      ensures userIdHeader.Some? && ParseLong(userIdHeader.value).Some? && !sendOk ==>
        r == Failed(SendFailed) && sessions == old(sessions) && outbox == old(outbox)
      ensures userIdHeader.Some? && ParseLong(userIdHeader.value).Some? && sendOk ==>
        var id := ParseLong(userIdHeader.value).value;
        && r == Registered(id)
        && outbox == old(outbox) + [Frame(session, RosterList(Roster(FindAll(users, id), old(sessions))))]
        && sessions == old(sessions)[id := session]
      ensures r.Registered? ==>
        && r.id in sessions && sessions[r.id] == session
        && sessions.Keys == old(sessions).Keys + {r.id}
        && forall k :: k in old(sessions) && k != r.id ==> sessions[k] == old(sessions)[k]
      ensures old(sessions).Keys <= sessions.Keys
    {
      if userIdHeader.None? {
        return NoUserId;
      }
      var parsed := ParseLong(userIdHeader.value);
      if parsed.None? {
        return Failed(NumberFormat);
      }
      var id := parsed.value;
      var others := FindAll(users, id);
      var entries := Roster(others, sessions);
      if !sendOk {
        return Failed(SendFailed);
      }
      outbox := outbox + [Frame(session, RosterList(entries))];
      sessions := sessions[id := session];
      r := Registered(id);
    }

    /** Inbound chat frames are ignored. */
    method HandleMessage(session: Session, message: InboundMessage)
      ensures sessions == old(sessions) && outbox == old(outbox)
    {
    }

    /** Transport errors are ignored: the session stays registered. */
    method HandleTransportError(session: Session)
      ensures sessions == old(sessions) && outbox == old(outbox)
    {
    }

    /** Closing a connection does not deregister it. */
    method AfterConnectionClosed(session: Session)
      ensures sessions == old(sessions) && outbox == old(outbox)
    {
    }
  }

  /** Two users connecting one after the other: the first sees the second as
      offline, the second sees the first as online. Proved from the contract
      of AfterConnectionEstablished alone. */
  method ConnectTwoUsers(first: User, second: User, s1: Session, s2: Session)
    returns (roster1: seq<UserResponse>, roster2: seq<UserResponse>)
    requires first.id != second.id
    requires InLongRange(first.id) && InLongRange(second.id)
    ensures roster1 == [UserResponse(second, false)]
    ensures roster2 == [UserResponse(first, true)]
  {
    var table := [first, second];
    var handler := new MyChatHandler();
    ParseToDecimal(first.id);
    ParseToDecimal(second.id);
    var r1 := handler.AfterConnectionEstablished(s1, Some(ToDecimal(first.id)), table, true);
    var r2 := handler.AfterConnectionEstablished(s2, Some(ToDecimal(second.id)), table, true);
    assert [first, second][1..] == [second];
    assert [second][1..] == [];
    roster1 := handler.outbox[0].payload.entries;
    roster2 := handler.outbox[1].payload.entries;
  }
}
