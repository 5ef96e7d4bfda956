/**
 * The data model of the secret-friend server (src/types.ts), plus the few
 * shapes that the services use without declaring them there.
 */
module Types {

  datatype Option<+T> = None | Some(value: T)

  /** A call that either returns a value or throws a plain `Error(message)`. */
  datatype Result<+T> = Ok(value: T) | Failure(message: string)

  /** `o || ""` on an optional string. */
  function OrEmpty(o: Option<string>): string {
    if o.Some? then o.value else ""
  }

  /** JavaScript truthiness of an optional string: present and non-empty. */
  predicate Truthy(o: Option<string>) {
    o.Some? && o.value != ""
  }

  /** A room-scoped member. `isAdmin` and `socketId` are optional. */
  datatype Participant = Participant(
    id: string,
    name: string,
    isAdmin: Option<bool>,
    socketId: Option<string>)

  /**
   * A room as it is stored. The declared fields are those of types.ts;
   * `secretList` is the one extra field of a stored room document that the
   * result-by-token service reads (nothing in this core writes it).
   */
  datatype Room = Room(
    id: string,
    name: Option<string>,
    adminId: string,
    participants: seq<Participant>,
    secretList: Option<seq<string>>)

  /** A global user record (the shape the user repository stores). */
  datatype User = User(id: string, name: string, socketId: Option<string>)

  /** One line of a draw: `from` gives a present to `to`. */
  datatype Pair = Pair(from: Participant, to: Participant)

  /** An entry of the notifier's online list; the name may be missing. */
  datatype OnlineUser = OnlineUser(id: string, name: Option<string>)

  /** An entry of a `users_status` envelope; the name is always present. */
  datatype UserStatus = UserStatus(id: string, name: string)

  /** The payload a verified result token carries. */
  datatype TokenPayload = TokenPayload(from: string, to: string)

  /** The inbound union: seven tags; only create_room has an optional field. */
  datatype Incoming =
    | CreateRoomMsg(roomId: string, roomName: Option<string>, adminId: string, adminName: string)
    | JoinRoomMsg(roomId: string, clientId: string, name: string)
    | AddParticipantMsg(roomId: string, adminId: string, participantId: string, name: string)
    | StartDrawMsg(roomId: string, adminId: string)
    | LeaveRoomMsg(roomId: string, clientId: string)
    | PingMsg
    | BroadcastMsg(roomId: string, adminId: string, message: string)

  const IncomingTags: set<string> :=
    {"create_room", "join_room", "add_participant", "start_draw", "leave_room", "ping", "broadcast"}

  /** The wire value of the `type` field of an inbound envelope. */
  function IncomingTag(m: Incoming): (t: string)
    ensures t in IncomingTags
  {
    match m
    case CreateRoomMsg(_, _, _, _) => "create_room"
    case JoinRoomMsg(_, _, _) => "join_room"
    case AddParticipantMsg(_, _, _, _) => "add_participant"
    case StartDrawMsg(_, _) => "start_draw"
    case LeaveRoomMsg(_, _) => "leave_room"
    case PingMsg => "ping"
    case BroadcastMsg(_, _, _) => "broadcast"
  }

  /**
   * The outbound envelopes. The first nine are the union of types.ts; the
   * services also send `left` with a client name, `room_found`, `result` and
   * `users_status`, which that union does not declare.
   */
  datatype Outgoing =
    | ErrorReply(message: string)
    | RoomCreated(roomId: string)
    | Joined(roomId: string, participants: seq<Participant>)
    | ParticipantAdded(participant: Participant)
    | YourMatch(matched: Participant)
    | DrawResultAdmin(mapping: seq<Pair>)
    | Left(roomId: string, clientId: string)
    | Pong
    | BroadcastReply(from: Participant, message: string)
    | LeftWithName(clientName: string, clientId: string)
    | RoomFound(room: Room)
    | ResultReply(toName: string, fromName: string)
    | UsersStatus(users: seq<UserStatus>)

  const DeclaredOutgoingTags: set<string> :=
    {"error", "room_created", "joined", "participant_added", "your_match",
     "draw_result_admin", "left", "pong", "broadcast"}

  /** True of the envelopes whose shape the types.ts union declares. */
  predicate DeclaredInTypes(m: Outgoing) {
    !(m.LeftWithName? || m.RoomFound? || m.ResultReply? || m.UsersStatus?)
  }

  /** The wire value of the `type` field of an outbound envelope. */
  function OutgoingTag(m: Outgoing): (t: string)
    ensures DeclaredInTypes(m) ==> t in DeclaredOutgoingTags
    ensures m.LeftWithName? ==> t == "left"
  {
    match m
    case ErrorReply(_) => "error"
    case RoomCreated(_) => "room_created"
    case Joined(_, _) => "joined"
    case ParticipantAdded(_) => "participant_added"
    case YourMatch(_) => "your_match"
    case DrawResultAdmin(_) => "draw_result_admin"
    case Left(_, _) => "left"
    case Pong => "pong"
    case BroadcastReply(_, _) => "broadcast"
    case LeftWithName(_, _) => "left"
    case RoomFound(_) => "room_found"
    case ResultReply(_, _) => "result"
    case UsersStatus(_) => "users_status"
  }

  /** `p.id` is unique within `ps`. */
  predicate UniqueIds(ps: seq<Participant>) {
    forall i, j :: 0 <= i < j < |ps| ==> ps[i].id != ps[j].id
  }

  /** Some participant of `ps` has id `id`. */
  predicate HasId(ps: seq<Participant>, id: string) {
    exists i :: 0 <= i < |ps| && ps[i].id == id
  }

  /** `ps.find(p => p.id === id)`: the first participant with that id. */
  function Find(ps: seq<Participant>, id: string): (r: Option<Participant>)
    ensures r.None? <==> !HasId(ps, id)
    ensures r.Some? ==> r.value in ps && r.value.id == id
    ensures r.Some? ==> exists i :: 0 <= i < |ps| && ps[i] == r.value
                                 && forall k :: 0 <= k < i ==> ps[k].id != id
  {
    if |ps| == 0 then None
    else if ps[0].id == id then Some(ps[0])
    else
      var r := Find(ps[1..], id);
      assert forall i :: 0 < i < |ps| ==> ps[i] == ps[1..][i - 1];
      r
  }

  /** `ps.filter(p => p.id !== id)`. */
  function RemoveId(ps: seq<Participant>, id: string): (r: seq<Participant>)
    ensures |r| <= |ps|
    ensures forall p :: p in r <==> p in ps && p.id != id
  {
    if |ps| == 0 then []
    else
      var rest := RemoveId(ps[1..], id);
      assert forall p :: p in ps <==> p == ps[0] || p in ps[1..];
      if ps[0].id == id then rest else [ps[0]] + rest
  }

  /** The filter looks at one participant at a time: kept exactly when its id differs. */
  lemma RemoveIdSingle(p: Participant, id: string)
    ensures RemoveId([p], id) == if p.id == id then [] else [p]
  {
  }

  /** The filter distributes over concatenation, so the survivors keep their order and multiplicity. */
  lemma {:induction false} RemoveIdAppend(ps: seq<Participant>, qs: seq<Participant>, id: string)
    ensures RemoveId(ps + qs, id) == RemoveId(ps, id) + RemoveId(qs, id)
  {
    if |ps| == 0 {
      assert ps + qs == qs;
    } else {
      assert (ps + qs)[0] == ps[0];
      assert (ps + qs)[1..] == ps[1..] + qs;
      RemoveIdAppend(ps[1..], qs, id);
    }
  }

  /** Filtering out an id that nobody has changes nothing. */
  lemma {:induction false} RemoveAbsentId(ps: seq<Participant>, id: string)
    requires !HasId(ps, id)
    ensures RemoveId(ps, id) == ps
  {
    if |ps| > 0 {
      RemoveAbsentId(ps[1..], id);
    }
  }

  /** Filtering keeps ids unique. */
  lemma {:induction false} RemoveIdKeepsUnique(ps: seq<Participant>, id: string)
    requires UniqueIds(ps)
    ensures UniqueIds(RemoveId(ps, id))
  {
    if |ps| > 0 {
      var rest := RemoveId(ps[1..], id);
      assert UniqueIds(ps[1..]) by {
        forall i, j | 0 <= i < j < |ps[1..]| ensures ps[1..][i].id != ps[1..][j].id {
          assert ps[1..][i] == ps[i + 1] && ps[1..][j] == ps[j + 1];
        }
      }
      RemoveIdKeepsUnique(ps[1..], id);
      forall p | p in rest ensures p.id != ps[0].id {
        assert p in ps[1..];
        var k :| 0 <= k < |ps[1..]| && ps[1..][k] == p;
        assert ps[k + 1] == p;
      }
      if ps[0].id != id {
        var r := [ps[0]] + rest;
        forall i, j | 0 <= i < j < |r| ensures r[i].id != r[j].id {
          if i == 0 {
            assert r[j] in rest;
          } else {
            assert r[i] == rest[i - 1] && r[j] == rest[j - 1];
          }
        }
      }
    }
  }
}
