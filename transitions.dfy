/**
 * Each service of src/services as a transition on the store: from the
 * current store to an outcome, the new store, and the notifier events the
 * call emits in order. An `AppError` is a business error the dispatcher
 * reports verbatim; `Thrown` is any other exception: a repository's plain
 * `Error`, or the ReferenceError of the log line in addParticipant.ts:45.
 *
 * Every handler runs atomically: awaits do not interleave with other calls.
 */
module Transitions {
  import opened Types
  import opened Providers
  import opened Repositories
  import opened Draw

  datatype Outcome = Done | AppError(code: string) | Thrown(message: string)

  datatype Step = Step(outcome: Outcome, data: map<string, Record>, events: seq<Event>)

  /**
   * The invariant the handlers keep: every room key holds a room whose own
   * id is the key's suffix and whose participant ids are unique.
   */
  ghost predicate RoomsConsistent(data: map<string, Record>) {
    && WellTyped(data)
    && forall k :: k in data && IsRoomKey(k) ==>
         data[k].room.id == k[5..] && UniqueIds(data[k].room.participants)
  }

  lemma RoomOfConsistent(data: map<string, Record>, id: string)
    requires RoomsConsistent(data) && RoomOf(data, id).Some?
    ensures RoomOf(data, id).value.id == id
    ensures UniqueIds(RoomOf(data, id).value.participants)
  {
    RoomKeyShape(id);
  }

  /** Appending a participant whose id is new keeps ids unique. */
  lemma AppendNewKeepsUnique(ps: seq<Participant>, p: Participant)
    requires UniqueIds(ps) && !HasId(ps, p.id)
    ensures UniqueIds(ps + [p])
  {
    var r := ps + [p];
    forall i, j | 0 <= i < j < |r| ensures r[i].id != r[j].id {
      if j == |ps| {
        assert r[i] == ps[i];
      }
    }
  }

  // ---------------------------------------------------------------------
  // createRoom.ts

  /** The room createRoom builds: the admin is its one participant. */
  function InitialRoom(roomId: string, roomName: string, adminId: string, adminName: string, socketId: string): (r: Room)
    ensures r.id == roomId && r.name == Some(roomName) && r.adminId == adminId && r.secretList.None?
    ensures |r.participants| == 1 && r.participants[0].id == adminId && r.participants[0].name == adminName
    ensures r.participants[0].isAdmin == Some(true) && r.participants[0].socketId == Some(socketId)
  {
    Room(roomId, Some(roomName), adminId, [Participant(adminId, adminName, Some(true), Some(socketId))], None)
  }

  /**
   * `CreateRoomService.handle`: refused with `room_already_exists` when the
   * room exists; otherwise stores a room whose only participant is the admin
   * and emits group join, `room_created` and `joined` to the origin socket.
   */
  function CreateRoom(data: map<string, Record>, roomId: string, roomName: string, adminId: string,
                      adminName: string, socketId: string): (s: Step)
    requires WellTyped(data)
    ensures WellTyped(s.data)
    ensures RoomOf(data, roomId).Some? ==> s == Step(AppError("room_already_exists"), data, [])
    ensures RoomOf(data, roomId).None? ==>
      && s.outcome == Done
      && RoomOf(s.data, roomId).Some?
      && var room := RoomOf(s.data, roomId).value;
      && room.id == roomId && room.name == Some(roomName) && room.secretList.None?
      && |room.participants| == 1
      && room.participants[0] == Participant(adminId, adminName, Some(true), Some(socketId))
      && room.adminId == room.participants[0].id
      && s.data.Keys == data.Keys + {RoomKey(roomId)}
      && (forall k :: k in data ==> s.data[k] == data[k])
      && s.events == [JoinGroup(socketId, roomId), Event.Send(socketId, RoomCreated(roomId)),
                      Event.Send(socketId, Joined(roomId, room.participants))]
  {
    if RoomKey(roomId) in data then Step(AppError("room_already_exists"), data, [])
    else
      var room := InitialRoom(roomId, roomName, adminId, adminName, socketId);
      var stored := RoomInserted(data, roomId, room).value;
      Step(Done, stored,
           [JoinGroup(socketId, roomId), Event.Send(socketId, RoomCreated(roomId)),
            Event.Send(socketId, Joined(roomId, room.participants))])
  }

  // ---------------------------------------------------------------------
  // joinRoom.ts

  /**
   * `JoinRoomService.handle`: refused with `room_not_found` or
   * `client_id_already_in_room`; otherwise the new participant is appended to
   * a local copy of the list only, and the store is never written.
   */
  function JoinRoom(data: map<string, Record>, roomId: string, clientId: string, name: string,
                    socketId: string): (s: Step)
    requires WellTyped(data)
    ensures s.data == data
    ensures RoomOf(data, roomId).None? ==> s.outcome == AppError("room_not_found") && s.events == []
    ensures RoomOf(data, roomId).Some? && HasId(RoomOf(data, roomId).value.participants, clientId) ==>
              s.outcome == AppError("client_id_already_in_room") && s.events == []
    ensures RoomOf(data, roomId).Some? && !HasId(RoomOf(data, roomId).value.participants, clientId) ==>
      var ps := RoomOf(data, roomId).value.participants;
      var joined := Participant(clientId, name, None, Some(socketId));
      && s.outcome == Done
      && s.events == [JoinGroup(socketId, roomId), Event.Send(socketId, Joined(roomId, ps + [joined])),
                      ToRoom(roomId, ParticipantAdded(joined))]
  {
    match RoomOf(data, roomId)
    case None => Step(AppError("room_not_found"), data, [])
    case Some(room) =>
      if Find(room.participants, clientId).Some? then Step(AppError("client_id_already_in_room"), data, [])
      else
        var joined := Participant(clientId, name, None, Some(socketId));
        var participants := room.participants + [joined];
        Step(Done, data,
             [JoinGroup(socketId, roomId), Event.Send(socketId, Joined(roomId, participants)),
              ToRoom(roomId, ParticipantAdded(joined))])
  }

  // ---------------------------------------------------------------------
  // addParticipant.ts

  /**
   * `AddParticipantService.handle`: refused with `room_not_found`,
   * `only_admin_can_add` or `participant_already_exists`, in that order;
   * otherwise the list with the new `{id, name}` appended goes through
   * `updateRoom`, which fails unless the raw key `roomId` is stored, and only
   * on success is `participant_added` sent to the room. The closing log line
   * then reads a `name` that nothing declares, so a successful add ends in a
   * thrown `ReferenceError` after the write and the send.
   */
  function AddParticipant(data: map<string, Record>, roomId: string, adminId: string,
                          participantId: string, name: string): (s: Step)
    requires WellTyped(data)
    ensures WellTyped(s.data)
    ensures RoomOf(data, roomId).None? ==> s == Step(AppError("room_not_found"), data, [])
    ensures RoomOf(data, roomId).Some? && RoomOf(data, roomId).value.adminId != adminId ==>
              s == Step(AppError("only_admin_can_add"), data, [])
    ensures RoomOf(data, roomId).Some? && RoomOf(data, roomId).value.adminId == adminId
            && HasId(RoomOf(data, roomId).value.participants, participantId) ==>
              s == Step(AppError("participant_already_exists"), data, [])
    ensures RoomOf(data, roomId).Some? && RoomOf(data, roomId).value.adminId == adminId
            && !HasId(RoomOf(data, roomId).value.participants, participantId) ==>
      var ps := RoomOf(data, roomId).value.participants;
      var added := Participant(participantId, name, None, None);
      && (roomId !in data ==> s == Step(Thrown("Room not found"), data, []))
      && (roomId in data ==>
            && s.outcome == Thrown("name is not defined")
            && RoomOf(s.data, roomId) == Some(MergeRoom(data[roomId], RoomOf(data, roomId).value.(participants := ps + [added])))
            && RoomOf(s.data, roomId).value.participants == ps + [added]
            && s.data.Keys == data.Keys + {RoomKey(roomId)}
            && (forall k :: k in data && k != RoomKey(roomId) ==> s.data[k] == data[k])
            && s.events == [ToRoom(roomId, ParticipantAdded(added))])
  {
    match RoomOf(data, roomId)
    case None => Step(AppError("room_not_found"), data, [])
    case Some(room) =>
      if room.adminId != adminId then Step(AppError("only_admin_can_add"), data, [])
      else if Find(room.participants, participantId).Some? then
        Step(AppError("participant_already_exists"), data, [])
      else
        var added := Participant(participantId, name, None, None);
        var update := room.(participants := room.participants + [added]);
        match RoomUpdated(data, roomId, update)
        case Failure(message) => Step(Thrown(message), data, [])
        case Ok(stored) =>
          // the closing log line names an undeclared `name`: a ReferenceError
          Step(Thrown("name is not defined"), stored, [ToRoom(roomId, ParticipantAdded(added))])
  }

  // ---------------------------------------------------------------------
  // leaveRoom.ts

  /**
   * `LeaveRoomService.handle`: refused with `room_not_found`; otherwise the
   * filtered list is written through `updateRoom` before the membership
   * check, so a missing participant is reported only after the store has
   * been written, and a failed write hides it.
   */
  function LeaveRoom(data: map<string, Record>, roomId: string, participantId: string): (s: Step)
    requires WellTyped(data)
    ensures WellTyped(s.data)
    ensures RoomOf(data, roomId).None? ==> s == Step(AppError("room_not_found"), data, [])
    ensures RoomOf(data, roomId).Some? ==>
      var ps := RoomOf(data, roomId).value.participants;
      && (roomId !in data ==> s == Step(Thrown("Room not found"), data, []))
      && (roomId in data ==>
            && RoomOf(s.data, roomId) == Some(MergeRoom(data[roomId], RoomOf(data, roomId).value.(participants := RemoveId(ps, participantId))))
            && RoomOf(s.data, roomId).value.participants == RemoveId(ps, participantId)
            && s.data.Keys == data.Keys + {RoomKey(roomId)}
            && (forall k :: k in data && k != RoomKey(roomId) ==> s.data[k] == data[k])
            && (!HasId(ps, participantId) ==> s.outcome == AppError("participant_not_found") && s.events == [])
            && (HasId(ps, participantId) ==>
                  var user := Find(ps, participantId).value;
                  && user in ps && user.id == participantId
                  && s.outcome == Done
                  && s.events == [LeaveGroup(OrEmpty(user.socketId), roomId),
                                  ToRoom(roomId, LeftWithName(user.name, participantId)),
                                  Untrack(OrEmpty(user.socketId))]))
  {
    match RoomOf(data, roomId)
    case None => Step(AppError("room_not_found"), data, [])
    case Some(room) =>
      var remaining := RemoveId(room.participants, participantId);
      match RoomUpdated(data, roomId, room.(participants := remaining))
      case Failure(message) => Step(Thrown(message), data, [])
      case Ok(stored) =>
        match Find(room.participants, participantId)
        case None => Step(AppError("participant_not_found"), stored, [])
        case Some(user) =>
          Step(Done, stored,
               [LeaveGroup(OrEmpty(user.socketId), roomId),
                ToRoom(roomId, LeftWithName(user.name, participantId)),
                Untrack(OrEmpty(user.socketId))])
  }

  // ---------------------------------------------------------------------
  // broadcast.ts

  /**
   * `BroadcastService.handle`: refused with `room_not_found`, then with
   * `admin_not_in_room` when no participant has the id `adminId` (membership,
   * not equality with the room's admin); otherwise one `broadcast` to the room
   * from that participant. The store is never written.
   */
  function Broadcast(data: map<string, Record>, roomId: string, message: string, adminId: string): (s: Step)
    requires WellTyped(data)
    ensures s.data == data
    ensures RoomOf(data, roomId).None? ==> s.outcome == AppError("room_not_found") && s.events == []
    ensures RoomOf(data, roomId).Some? && !HasId(RoomOf(data, roomId).value.participants, adminId) ==>
              s.outcome == AppError("admin_not_in_room") && s.events == []
    ensures RoomOf(data, roomId).Some? && HasId(RoomOf(data, roomId).value.participants, adminId) ==>
      && s.outcome == Done
      && |s.events| == 1
      && s.events[0].ToRoom? && s.events[0].roomId == roomId
      && s.events[0].msg.BroadcastReply? && s.events[0].msg.message == message
      && s.events[0].msg.from in RoomOf(data, roomId).value.participants
      && s.events[0].msg.from.id == adminId
      && s.events[0].msg.from == Find(RoomOf(data, roomId).value.participants, adminId).value
  {
    match RoomOf(data, roomId)
    case None => Step(AppError("room_not_found"), data, [])
    case Some(room) =>
      match Find(room.participants, adminId)
      case None => Step(AppError("admin_not_in_room"), data, [])
      case Some(admin) => Step(Done, data, [ToRoom(roomId, BroadcastReply(admin, message))])
  }

  // ---------------------------------------------------------------------
  // getRoomById.ts

  /**
   * `GetRoomById.handle`: refused with `room_not_found`, then `not_authorized`
   * unless `adminId` is the room's admin; otherwise the whole stored room goes
   * to `socketId`. The store is never written.
   */
  function GetRoomById(data: map<string, Record>, roomId: string, adminId: string, socketId: string): (s: Step)
    requires WellTyped(data)
    ensures s.data == data
    ensures RoomOf(data, roomId).None? ==> s.outcome == AppError("room_not_found") && s.events == []
    ensures RoomOf(data, roomId).Some? && RoomOf(data, roomId).value.adminId != adminId ==>
              s.outcome == AppError("not_authorized") && s.events == []
    ensures RoomOf(data, roomId).Some? && RoomOf(data, roomId).value.adminId == adminId ==>
              s.outcome == Done && s.events == [Event.Send(socketId, RoomFound(RoomOf(data, roomId).value))]
  {
    match RoomOf(data, roomId)
    case None => Step(AppError("room_not_found"), data, [])
    case Some(room) =>
      if room.adminId != adminId then Step(AppError("not_authorized"), data, [])
      else Step(Done, data, [Event.Send(socketId, RoomFound(room))])
  }

  // ---------------------------------------------------------------------
  // getResultByToken.ts

  /**
   * `GetResultByToken.handle`. `verify` stands for the token check: the
   * payload of a token that verifies, or None. Refused with `room_not_found`,
   * `no_draw_result` (no secret list; an empty one is present), then
   * `invalid_token`, then `user_not_found` when either id of the payload is
   * not a participant; otherwise one `result` with the two names.
   */
  function GetResultByToken(data: map<string, Record>, roomId: string, socketId: string, token: string,
                            verify: string -> Option<TokenPayload>): (s: Step)
    requires WellTyped(data)
    ensures s.data == data
    ensures s.outcome == Done || s.events == []
    ensures RoomOf(data, roomId).None? ==> s.outcome == AppError("room_not_found")
    ensures RoomOf(data, roomId).Some? && RoomOf(data, roomId).value.secretList.None? ==>
              s.outcome == AppError("no_draw_result")
    ensures RoomOf(data, roomId).Some? && RoomOf(data, roomId).value.secretList.Some? && verify(token).None? ==>
              s.outcome == AppError("invalid_token")
    ensures RoomOf(data, roomId).Some? && RoomOf(data, roomId).value.secretList.Some? && verify(token).Some? ==>
      var ps := RoomOf(data, roomId).value.participants;
      var payload := verify(token).value;
      && (!HasId(ps, payload.to) || !HasId(ps, payload.from) ==> s.outcome == AppError("user_not_found"))
      && (HasId(ps, payload.to) && HasId(ps, payload.from) ==>
            && s.outcome == Done
            && |s.events| == 1 && s.events[0].Send? && s.events[0].socketId == socketId
            && s.events[0].msg.ResultReply?
            && (exists i :: 0 <= i < |ps| && ps[i].id == payload.to && ps[i].name == s.events[0].msg.toName)
            && (exists i :: 0 <= i < |ps| && ps[i].id == payload.from && ps[i].name == s.events[0].msg.fromName)
            && s.events[0].msg.toName == Find(ps, payload.to).value.name
            && s.events[0].msg.fromName == Find(ps, payload.from).value.name)
  {
    match RoomOf(data, roomId)
    case None => Step(AppError("room_not_found"), data, [])
    case Some(room) =>
      if room.secretList.None? then Step(AppError("no_draw_result"), data, [])
      else
        match verify(token)
        case None => Step(AppError("invalid_token"), data, [])
        case Some(payload) =>
          var toUser := Find(room.participants, payload.to);
          var fromUser := Find(room.participants, payload.from);
          if toUser.None? || fromUser.None? then Step(AppError("user_not_found"), data, [])
          else Step(Done, data, [Event.Send(socketId, ResultReply(toUser.value.name, fromUser.value.name))])
  }

  // ---------------------------------------------------------------------
  // startDraw.ts

  /** The `your_match` sends of the mapping loop: one per line whose `from` has a socket. */
  function MatchSends(m: seq<Pair>): (r: seq<Event>)
    ensures |r| <= |m|
    ensures forall e :: e in r ==> exists i :: 0 <= i < |m| && Truthy(m[i].from.socketId)
                                            && e == Event.Send(m[i].from.socketId.value, YourMatch(m[i].to))
    ensures forall i :: 0 <= i < |m| && Truthy(m[i].from.socketId) ==>
              Event.Send(m[i].from.socketId.value, YourMatch(m[i].to)) in r
    decreases |m|
  {
    if |m| == 0 then []
    else
      var init := m[..|m| - 1];
      var last := m[|m| - 1];
      var prefix := MatchSends(init);
      assert forall i :: 0 <= i < |init| ==> init[i] == m[i];
      if Truthy(last.from.socketId) then prefix + [Event.Send(last.from.socketId.value, YourMatch(last.to))]
      else prefix
  }

  /** How many events of `events` are `your_match` sends to `socketId`. */
  function MatchesTo(events: seq<Event>, socketId: string): nat
    decreases |events|
  {
    if |events| == 0 then 0
    else
      var last := events[|events| - 1];
      MatchesTo(events[..|events| - 1], socketId)
        + (if last.Send? && last.socketId == socketId && last.msg.YourMatch? then 1 else 0)
  }

  /** Distinct sockets among the lines with one. */
  predicate DistinctSockets(m: seq<Pair>) {
    forall i, j :: 0 <= i < j < |m| && Truthy(m[i].from.socketId) && Truthy(m[j].from.socketId) ==>
      m[i].from.socketId.value != m[j].from.socketId.value
  }

  /** With distinct sockets, each line with a socket yields exactly one `your_match` to it. */
  lemma {:induction false} OneMatchPerSocket(m: seq<Pair>, i: nat)
    requires i < |m| && Truthy(m[i].from.socketId) && DistinctSockets(m)
    ensures MatchesTo(MatchSends(m), m[i].from.socketId.value) == 1
    decreases |m|
  {
    var init := m[..|m| - 1];
    var last := m[|m| - 1];
    var sid := m[i].from.socketId.value;
    assert MatchSends(m) == MatchSends(init) + (if Truthy(last.from.socketId)
      then [Event.Send(last.from.socketId.value, YourMatch(last.to))] else []);
    if i == |m| - 1 {
      NoMatchWithoutLine(init, sid);
    } else {
      assert init[i] == m[i];
      assert DistinctSockets(init) by {
        forall a, b | 0 <= a < b < |init| && Truthy(init[a].from.socketId) && Truthy(init[b].from.socketId)
          ensures init[a].from.socketId.value != init[b].from.socketId.value
        {
          assert init[a] == m[a] && init[b] == m[b];
        }
      }
      OneMatchPerSocket(init, i);
    }
  }

  /** A socket that no line has receives no `your_match`. */
  lemma {:induction false} NoMatchWithoutLine(m: seq<Pair>, sid: string)
    requires forall k :: 0 <= k < |m| && Truthy(m[k].from.socketId) ==> m[k].from.socketId.value != sid
    ensures MatchesTo(MatchSends(m), sid) == 0
    decreases |m|
  {
    if |m| > 0 {
      var init := m[..|m| - 1];
      var last := m[|m| - 1];
      assert forall k :: 0 <= k < |init| ==> init[k] == m[k];
      NoMatchWithoutLine(init, sid);
      var p := MatchSends(init);
      if Truthy(last.from.socketId) {
        var e := Event.Send(last.from.socketId.value, YourMatch(last.to));
        assert (p + [e])[..|p + [e]| - 1] == p;
      }
    }
  }

  /** `mapping.find(({from}) => from.id === id)`. */
  function FindFrom(m: seq<Pair>, id: string): (r: Option<Pair>)
    ensures r.Some? ==> r.value in m && r.value.from.id == id
  {
    if |m| == 0 then None
    else if m[0].from.id == id then Some(m[0])
    else FindFrom(m[1..], id)
  }

  /** `find` answers with the first line whose `from` has the id, and null only when no line has it. */
  lemma {:induction false} FindFromIsFirst(m: seq<Pair>, id: string)
    ensures FindFrom(m, id).None? <==> forall i :: 0 <= i < |m| ==> m[i].from.id != id
    ensures FindFrom(m, id).Some? ==>
              exists i :: 0 <= i < |m| && m[i] == FindFrom(m, id).value && forall k :: 0 <= k < i ==> m[k].from.id != id
  {
    if |m| > 0 && m[0].from.id != id {
      FindFromIsFirst(m[1..], id);
      assert forall i :: 0 < i < |m| ==> m[i] == m[1..][i - 1];
      if FindFrom(m, id).Some? {
        var j :| 0 <= j < |m[1..]| && m[1..][j] == FindFrom(m, id).value && forall k :: 0 <= k < j ==> m[1..][k].from.id != id;
        assert m[j + 1] == FindFrom(m, id).value;
        assert forall k :: 0 <= k < j + 1 ==> m[k].from.id != id;
      }
    }
  }

  /** The line found by `from` id is the line of the first participant with that id. */
  lemma {:induction false} FindFromFollowsParticipants(participants: seq<Participant>, m: seq<Pair>, id: string)
    requires |m| == |participants| && forall i :: 0 <= i < |m| ==> m[i].from == participants[i]
    ensures FindFrom(m, id).Some? <==> Find(participants, id).Some?
    ensures FindFrom(m, id).Some? ==> FindFrom(m, id).value.from == Find(participants, id).value
  {
    if |m| > 0 && m[0].from.id != id {
      FindFromFollowsParticipants(participants[1..], m[1..], id);
    }
  }

  /** `draw_result_admin` to the admin's socket, when the admin's line has one. */
  function AdminSend(m: seq<Pair>, adminId: string): (r: seq<Event>)
    ensures |r| <= 1
    ensures r != [] <==> FindFrom(m, adminId).Some? && Truthy(FindFrom(m, adminId).value.from.socketId)
    ensures r != [] ==> r[0].Send? && r[0].msg == DrawResultAdmin(m)
                        && Some(r[0].socketId) == FindFrom(m, adminId).value.from.socketId
  {
    var line := FindFrom(m, adminId);
    if line.Some? && Truthy(line.value.from.socketId) then
      [Event.Send(line.value.from.socketId.value, DrawResultAdmin(m))]
    else []
  }

  /**
   * `StarDrawService.handle`: refused with `room_not_found`,
   * `only_admin_can_start_draw`, `need_at_least_two_participants` and
   * `could_not_generate_mapping`, in that order; otherwise a valid mapping is
   * drawn, each line whose `from` has a socket sends `your_match` to it, and
   * the whole mapping goes to the admin's socket when the admin is a
   * participant with one. The store is never written.
   */
  function StartDraw(data: map<string, Record>, roomId: string, adminId: string, oracle: nat -> nat -> nat): (s: Step)
    requires WellTyped(data) && AttemptOracle(oracle)
    ensures s.data == data
    ensures s.outcome == Done || s.events == []
  {
    match RoomOf(data, roomId)
    case None => Step(AppError("room_not_found"), data, [])
    case Some(room) =>
      if room.adminId != adminId then Step(AppError("only_admin_can_start_draw"), data, [])
      else if |room.participants| < 2 then Step(AppError("need_at_least_two_participants"), data, [])
      else
        match Generated(room.participants, oracle, FIRST_ATTEMPT)
        case None => Step(AppError("could_not_generate_mapping"), data, [])
        case Some(mapping) =>
          Step(Done, data, MatchSends(mapping) + AdminSend(mapping, adminId))
  }

  /**
   * `StarDrawService.handle` refuses with `room_not_found`,
   * `only_admin_can_start_draw`, `need_at_least_two_participants` and
   * `could_not_generate_mapping`, in that order; otherwise the mapping is
   * valid, each line whose `from` has a socket is sent `your_match`, and the
   * whole mapping goes to the admin's socket when the admin is a participant
   * with one.
   */
  lemma StartDrawOutcomes(data: map<string, Record>, roomId: string, adminId: string, oracle: nat -> nat -> nat)
    requires WellTyped(data) && AttemptOracle(oracle)
    ensures RoomOf(data, roomId).None? ==>
              StartDraw(data, roomId, adminId, oracle).outcome == AppError("room_not_found")
    ensures RoomOf(data, roomId).Some? && RoomOf(data, roomId).value.adminId != adminId ==>
              StartDraw(data, roomId, adminId, oracle).outcome == AppError("only_admin_can_start_draw")
    ensures RoomOf(data, roomId).Some? && RoomOf(data, roomId).value.adminId == adminId
            && |RoomOf(data, roomId).value.participants| < 2 ==>
              StartDraw(data, roomId, adminId, oracle).outcome == AppError("need_at_least_two_participants")
    ensures RoomOf(data, roomId).Some? && RoomOf(data, roomId).value.adminId == adminId
            && |RoomOf(data, roomId).value.participants| >= 2 ==>
      var s := StartDraw(data, roomId, adminId, oracle);
      var ps := RoomOf(data, roomId).value.participants;
      var drawn := Generated(ps, oracle, FIRST_ATTEMPT);
      && (drawn.None? ==> s.outcome == AppError("could_not_generate_mapping"))
      && (drawn.Some? ==>
            && s.outcome == Done
            && ValidMapping(ps, drawn.value)
            && var admin := Find(ps, adminId);
            && s.events == MatchSends(drawn.value)
                 + (if admin.Some? && Truthy(admin.value.socketId)
                    then [Event.Send(admin.value.socketId.value, DrawResultAdmin(drawn.value))] else []))
  {
    var room := RoomOf(data, roomId);
    if room.Some? && room.value.adminId == adminId && |room.value.participants| >= 2 {
      var ps := room.value.participants;
      GeneratedIsValid(ps, oracle, FIRST_ATTEMPT);
      var drawn := Generated(ps, oracle, FIRST_ATTEMPT);
      if drawn.Some? {
        FindFromFollowsParticipants(ps, drawn.value, adminId);
      }
    }
  }

  // ---------------------------------------------------------------------
  // connectNotification.ts

  /** The join and track pair emitted when the looked-up room exists. */
  function JoinAndTrack(room: Option<Room>, user: User, socketId: string): (r: seq<Event>)
    ensures room.None? ==> r == []
    ensures room.Some? ==> |r| == 2 && r[0] == JoinGroup(socketId, room.value.id)
                           && r[1].Track? && r[1].socketId == socketId && r[1].roomId == room.value.id
                           && r[1].userId == user.id && r[1].userName == user.name
  {
    if room.Some? then
      [JoinGroup(socketId, room.value.id), Track(socketId, user.id, room.value.id, user.name)]
    else []
  }

  /**
   * `ConnectNotification.handler`: an unknown user is stored with the
   * socket id set; a known user is written back as the stored record with
   * its socket id overwritten. Then, only if the room looked up under
   * `roomId` (or `""` when absent) exists, the socket joins its group and is
   * tracked there under the incoming user's name.
   */
  function ConnectNotification(data: map<string, Record>, user: User, socketId: string,
                               roomId: Option<string>): (s: Step)
    requires WellTyped(data)
    ensures s.outcome == Done && WellTyped(s.data)
    ensures s.data.Keys == data.Keys + {UserKey(user.id)}
    ensures forall k :: k in data && k != UserKey(user.id) ==> s.data[k] == data[k]
    ensures UserOf(data, user.id).None? ==> UserOf(s.data, user.id) == Some(user.(socketId := Some(socketId)))
    ensures UserOf(data, user.id).Some? ==>
              UserOf(s.data, user.id) == Some(UserOf(data, user.id).value.(socketId := Some(socketId)))
    ensures var room := RoomOf(data, OrEmpty(roomId));
            && (room.None? ==> s.events == [])
            && (room.Some? ==> s.events == [JoinGroup(socketId, room.value.id),
                                            Track(socketId, user.id, room.value.id, user.name)])
  {
    var userFound := UserOf(data, user.id);
    var roomFound := RoomOf(data, OrEmpty(roomId));
    if userFound.None? then
      var stored := UserInserted(data, user.(socketId := Some(socketId))).value;
      Step(Done, stored, JoinAndTrack(roomFound, user, socketId))
    else
      var updated := userFound.value.(socketId := Some(socketId));
      var stored := UserUpdated(data, user.id, updated).value;
      Step(Done, stored, JoinAndTrack(roomFound, user, socketId))
  }

  // ---------------------------------------------------------------------
  // updateUserPresence.ts

  /** `online.map(u => ({id: u.id, name: u.name || ""}))`. */
  function Statuses(online: seq<OnlineUser>): (r: seq<UserStatus>)
    ensures |r| == |online|
    ensures forall i :: 0 <= i < |r| ==> r[i].id == online[i].id
    ensures forall i :: 0 <= i < |r| && online[i].name.Some? ==> r[i].name == online[i].name.value
    ensures forall i :: 0 <= i < |r| && online[i].name.None? ==> r[i].name == ""
  {
    seq(|online|, i requires 0 <= i < |online| => UserStatus(online[i].id, OrEmpty(online[i].name)))
  }

  /**
   * `notifyUserOnline(roomId, userId)`: `online` is what the notifier answers
   * for `getOnlineUsersInRoom(roomId)`. One `users_status` to the room.
   */
  function NotifyUserOnline(roomId: string, userId: string, online: seq<OnlineUser>): (r: seq<Event>)
    ensures |r| == 1 && r[0].ToRoom? && r[0].roomId == roomId
    ensures r[0].msg.UsersStatus? && |r[0].msg.users| == |online|
    ensures forall i :: 0 <= i < |online| ==> r[0].msg.users[i] == UserStatus(online[i].id, OrEmpty(online[i].name))
    ensures r[0].msg.users == Statuses(online)
  {
    [ToRoom(roomId, UsersStatus(Statuses(online)))]
  }

  /** `notifyUserOffline(roomId, userId)`: the same envelope as the online one. */
  function NotifyUserOffline(roomId: string, userId: string, online: seq<OnlineUser>): (r: seq<Event>)
    ensures |r| == 1 && r[0].ToRoom? && r[0].roomId == roomId
    ensures r[0].msg.UsersStatus? && |r[0].msg.users| == |online|
    ensures forall i :: 0 <= i < |online| ==> r[0].msg.users[i] == UserStatus(online[i].id, OrEmpty(online[i].name))
    ensures r[0].msg.users == Statuses(online)
  {
    [ToRoom(roomId, UsersStatus(Statuses(online)))]
  }

  /** Going online and going offline announce the same list; the user id plays no part. */
  lemma PresenceEnvelopesAgree(roomId: string, userId: string, otherId: string, online: seq<OnlineUser>)
    ensures NotifyUserOnline(roomId, userId, online) == NotifyUserOffline(roomId, otherId, online)
  {
  }

  // ---------------------------------------------------------------------
  // The invariant

  lemma {:induction false} CreateRoomKeepsConsistent(data: map<string, Record>, roomId: string, roomName: string,
                                                     adminId: string, adminName: string, socketId: string)
    requires RoomsConsistent(data)
    ensures RoomsConsistent(CreateRoom(data, roomId, roomName, adminId, adminName, socketId).data)
  {
    var s := CreateRoom(data, roomId, roomName, adminId, adminName, socketId);
    if RoomKey(roomId) !in data {
      forall k | k in s.data && IsRoomKey(k)
        ensures s.data[k].room.id == k[5..] && UniqueIds(s.data[k].room.participants)
      {
        if k == RoomKey(roomId) {
          assert s.data[k] == RoomRecord(RoomOf(s.data, roomId).value);
        }
      }
    }
  }

  lemma {:induction false} AddParticipantKeepsConsistent(data: map<string, Record>, roomId: string, adminId: string,
                                                         participantId: string, name: string)
    requires RoomsConsistent(data)
    ensures RoomsConsistent(AddParticipant(data, roomId, adminId, participantId, name).data)
  {
    var s := AddParticipant(data, roomId, adminId, participantId, name);
    var room := RoomOf(data, roomId);
    if room.Some? && room.value.adminId == adminId && !HasId(room.value.participants, participantId)
       && roomId in data {
      RoomOfConsistent(data, roomId);
      var added := Participant(participantId, name, None, None);
      AppendNewKeepsUnique(room.value.participants, added);
      forall k | k in s.data && IsRoomKey(k)
        ensures s.data[k].room.id == k[5..] && UniqueIds(s.data[k].room.participants)
      {
        if k == RoomKey(roomId) {
          assert s.data[k] == RoomRecord(RoomOf(s.data, roomId).value);
        }
      }
    }
  }

  lemma {:induction false} LeaveRoomKeepsConsistent(data: map<string, Record>, roomId: string, participantId: string)
    requires RoomsConsistent(data)
    ensures RoomsConsistent(LeaveRoom(data, roomId, participantId).data)
  {
    var s := LeaveRoom(data, roomId, participantId);
    var room := RoomOf(data, roomId);
    if room.Some? && roomId in data {
      RoomOfConsistent(data, roomId);
      RemoveIdKeepsUnique(room.value.participants, participantId);
      forall k | k in s.data && IsRoomKey(k)
        ensures s.data[k].room.id == k[5..] && UniqueIds(s.data[k].room.participants)
      {
        if k == RoomKey(roomId) {
          assert s.data[k] == RoomRecord(RoomOf(s.data, roomId).value);
        }
      }
    }
  }

  lemma {:induction false} ConnectNotificationKeepsConsistent(data: map<string, Record>, user: User,
                                                              socketId: string, roomId: Option<string>)
    requires RoomsConsistent(data)
    ensures RoomsConsistent(ConnectNotification(data, user, socketId, roomId).data)
  {
    var s := ConnectNotification(data, user, socketId, roomId);
    UserKeyShape(user.id);
    forall k | k in s.data && IsRoomKey(k)
      ensures s.data[k].room.id == k[5..] && UniqueIds(s.data[k].room.participants)
    {
      assert k != UserKey(user.id);
    }
  }

  /** A room that joins the store through createRoom has exactly one participant, its admin. */
  lemma NewRoomHasOneAdmin(data: map<string, Record>, roomId: string, roomName: string, adminId: string,
                           adminName: string, socketId: string)
    requires WellTyped(data) && RoomOf(data, roomId).None?
    ensures var s := CreateRoom(data, roomId, roomName, adminId, adminName, socketId);
            && RoomOf(s.data, roomId).Some?
            && var ps := RoomOf(s.data, roomId).value.participants;
            && |ps| == 1 && ps[0].id == RoomOf(s.data, roomId).value.adminId && ps[0].isAdmin == Some(true)
  {
  }
}
