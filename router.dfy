/**
 * The `message` callback of src/providers/SocketIoProvider.ts: it checks the
 * shape of the envelope, routes on its `type` to exactly one service, and
 * turns whatever that service throws into one `error` envelope to the
 * sender: an `AppError` code verbatim, anything else as
 * `internal_server_error`.
 *
 * The services are the authoritative handlers; of the code the callback runs
 * after a service returns, only the `leave_room` continuation is modelled,
 * since it is the one that does not read a service return value.
 */
module Router {
  import opened Types
  import opened Providers
  import opened Repositories
  import opened Draw
  import opened Transitions
  import opened Services

  /** The declared fields of every inbound variant, by name. */
  datatype Body = Body(
    roomId: string,
    roomName: Option<string>,
    adminId: string,
    adminName: string,
    clientId: string,
    name: string,
    participantId: string,
    message: string)

  /**
   * What arrives with a `message` event: a value that is null or not an
   * object, or an object whose `type` field may be missing.
   */
  datatype Envelope = NotAnObject | Object(tag: Option<string>, body: Body)

  /** Where the callback's if-chain sends an envelope. */
  datatype Routed = Invalid | Unknown(tag: string) | Message(msg: Incoming)

  /** The body carries exactly the fields of `m` that the variant declares. */
  predicate Carries(body: Body, m: Incoming) {
    match m
    case CreateRoomMsg(roomId, roomName, adminId, adminName) =>
      body.roomId == roomId && body.roomName == roomName && body.adminId == adminId && body.adminName == adminName
    case JoinRoomMsg(roomId, clientId, name) =>
      body.roomId == roomId && body.clientId == clientId && body.name == name
    case AddParticipantMsg(roomId, adminId, participantId, name) =>
      body.roomId == roomId && body.adminId == adminId && body.participantId == participantId && body.name == name
    case StartDrawMsg(roomId, adminId) =>
      body.roomId == roomId && body.adminId == adminId
    case LeaveRoomMsg(roomId, clientId) =>
      body.roomId == roomId && body.clientId == clientId
    case PingMsg => true
    case BroadcastMsg(roomId, adminId, message) =>
      body.roomId == roomId && body.adminId == adminId && body.message == message
  }

  /**
   * The validation and the tag tests: a value that is not an object or has
   * no `type` is invalid, a `type` outside the seven tags is unknown, and a
   * known tag reads the fields its variant declares.
   */
  function Parse(env: Envelope): (r: Routed)
    ensures r.Invalid? <==> env.NotAnObject? || env.tag.None?
    ensures r.Unknown? <==> env.Object? && env.tag.Some? && env.tag.value !in IncomingTags
    ensures r.Unknown? ==> r.tag == env.tag.value
    ensures r.Message? ==> env.Object? && env.tag == Some(IncomingTag(r.msg)) && Carries(env.body, r.msg)
  {
    if env.NotAnObject? || env.tag.None? then Invalid
    else
      var b := env.body;
      match env.tag.value
      case "ping" => Message(PingMsg)
      case "create_room" => Message(CreateRoomMsg(b.roomId, b.roomName, b.adminId, b.adminName))
      case "join_room" => Message(JoinRoomMsg(b.roomId, b.clientId, b.name))
      case "add_participant" => Message(AddParticipantMsg(b.roomId, b.adminId, b.participantId, b.name))
      case "leave_room" => Message(LeaveRoomMsg(b.roomId, b.clientId))
      case "broadcast" => Message(BroadcastMsg(b.roomId, b.adminId, b.message))
      case "start_draw" => Message(StartDrawMsg(b.roomId, b.adminId))
      case other => Unknown(other)
  }

  /** The envelope a client sends for `m`; undeclared fields are empty. */
  function EnvelopeOf(m: Incoming): (env: Envelope)
    ensures env.Object? && env.tag == Some(IncomingTag(m)) && Carries(env.body, m)
  {
    var none := Body("", None, "", "", "", "", "", "");
    var body :=
      match m
      case CreateRoomMsg(roomId, roomName, adminId, adminName) =>
        none.(roomId := roomId, roomName := roomName, adminId := adminId, adminName := adminName)
      case JoinRoomMsg(roomId, clientId, name) => none.(roomId := roomId, clientId := clientId, name := name)
      case AddParticipantMsg(roomId, adminId, participantId, name) =>
        none.(roomId := roomId, adminId := adminId, participantId := participantId, name := name)
      case StartDrawMsg(roomId, adminId) => none.(roomId := roomId, adminId := adminId)
      case LeaveRoomMsg(roomId, clientId) => none.(roomId := roomId, clientId := clientId)
      case PingMsg => none
      case BroadcastMsg(roomId, adminId, message) => none.(roomId := roomId, adminId := adminId, message := message);
    Object(Some(IncomingTag(m)), body)
  }

  /** Every inbound message survives the trip through its envelope. */
  lemma ParseEnvelopeOf(m: Incoming)
    ensures Parse(EnvelopeOf(m)) == Message(m)
  {
  }

  /** Any envelope whose tag is known is read as the message it carries. */
  lemma ParseKnownTag(env: Envelope, m: Incoming)
    requires env.Object? && env.tag == Some(IncomingTag(m)) && Carries(env.body, m)
    ensures Parse(env) == Message(m)
  {
  }

  const DEFAULT_ROOM_NAME: string := "Room_Name_Default"

  /** `roomName || "Room_Name_Default"`. */
  function RoomNameOr(roomName: Option<string>): (r: string)
    ensures Truthy(roomName) ==> r == roomName.value
    ensures !Truthy(roomName) ==> r == DEFAULT_ROOM_NAME
    ensures r != ""
  {
    if Truthy(roomName) then roomName.value else DEFAULT_ROOM_NAME
  }

  /** The message of the `error` envelope for a refused call. */
  function ErrorCode(o: Outcome): (code: string)
    requires !o.Done?
    ensures o.AppError? ==> code == o.code
    ensures o.Thrown? ==> code == "internal_server_error"
  {
    if o.AppError? then o.code else "internal_server_error"
  }

  /** The service the callback calls for `m`, with the sender's socket as origin. */
  function Handled(data: map<string, Record>, m: Incoming, origin: string, oracle: nat -> nat -> nat): (s: Step)
    requires WellTyped(data) && AttemptOracle(oracle) && !m.PingMsg?
    ensures WellTyped(s.data)
  {
    match m
    case CreateRoomMsg(roomId, roomName, adminId, adminName) =>
      CreateRoom(data, roomId, RoomNameOr(roomName), adminId, adminName, origin)
    case JoinRoomMsg(roomId, clientId, name) => JoinRoom(data, roomId, clientId, name, origin)
    case AddParticipantMsg(roomId, adminId, participantId, name) =>
      AddParticipant(data, roomId, adminId, participantId, name)
    case StartDrawMsg(roomId, adminId) => StartDraw(data, roomId, adminId, oracle)
    case LeaveRoomMsg(roomId, clientId) => LeaveRoom(data, roomId, clientId)
    case BroadcastMsg(roomId, adminId, message) => Broadcast(data, roomId, message, adminId)
  }

  /** What the callback itself does after a service returns normally. */
  function Continuation(m: Incoming, origin: string): (r: seq<Event>)
    ensures !m.LeaveRoomMsg? ==> r == []
    ensures m.LeaveRoomMsg? ==> |r| == 2 && r[0] == LeaveGroup(origin, m.roomId)
    ensures m.LeaveRoomMsg? ==> r[1].ToRoom? && r[1].roomId == m.roomId && r[1].msg == Left(m.roomId, m.clientId)
  {
    if m.LeaveRoomMsg? then [LeaveGroup(origin, m.roomId), ToRoom(m.roomId, Left(m.roomId, m.clientId))]
    else []
  }

  /** The store and the events one `message` event leaves behind. */
  datatype Reaction = Reaction(data: map<string, Record>, events: seq<Event>)

  /**
   * One `message` event: the envelope's refusal, the `pong`, or the one
   * service the message calls followed by either the continuation or the
   * error envelope for its refusal.
   */
  function Dispatch(data: map<string, Record>, env: Envelope, origin: string, oracle: nat -> nat -> nat): (r: Reaction)
    requires WellTyped(data) && AttemptOracle(oracle)
    ensures WellTyped(r.data)
  {
    match Parse(env)
    case Invalid => Reaction(data, [Event.Send(origin, ErrorReply("invalid_message"))])
    case Unknown(_) => Reaction(data, [Event.Send(origin, ErrorReply("unknown_message_type"))])
    case Message(m) =>
      if m.PingMsg? then Reaction(data, [Event.Send(origin, Pong)])
      else
        var s := Handled(data, m, origin, oracle);
        if s.outcome.Done? then Reaction(s.data, s.events + Continuation(m, origin))
        else Reaction(s.data, s.events + [Event.Send(origin, ErrorReply(ErrorCode(s.outcome)))])
  }


  /** One `message` event keeps every stored room's id matching its key and its participant ids unique. */
  lemma DispatchKeepsConsistent(data: map<string, Record>, env: Envelope, origin: string, oracle: nat -> nat -> nat)
    requires RoomsConsistent(data) && AttemptOracle(oracle)
    ensures RoomsConsistent(Dispatch(data, env, origin, oracle).data)
  {
    match Parse(env)
    case Invalid =>
    case Unknown(_) =>
    case Message(m) =>
      match m
      case CreateRoomMsg(roomId, roomName, adminId, adminName) =>
        CreateRoomKeepsConsistent(data, roomId, RoomNameOr(roomName), adminId, adminName, origin);
      case AddParticipantMsg(roomId, adminId, participantId, name) =>
        AddParticipantKeepsConsistent(data, roomId, adminId, participantId, name);
      case LeaveRoomMsg(roomId, clientId) =>
        LeaveRoomKeepsConsistent(data, roomId, clientId);
      case _ =>
  }

  /**
   * Refusals of the envelope answer `invalid_message` or
   * `unknown_message_type`, `ping` answers `pong`, and any other message
   * writes what its service writes; a completed service is followed by its
   * continuation and nothing else, an `AppError` is reported with its code,
   * anything else a service throws as `internal_server_error`.
   */
  lemma DispatchOutcomes(data: map<string, Record>, env: Envelope, origin: string, oracle: nat -> nat -> nat)
    requires WellTyped(data) && AttemptOracle(oracle)
    ensures var r := Dispatch(data, env, origin, oracle);
            !Parse(env).Message? ==> r.data == data && |r.events| == 1
    ensures Parse(env).Invalid? ==>
              Dispatch(data, env, origin, oracle).events == [Event.Send(origin, ErrorReply("invalid_message"))]
    ensures Parse(env).Unknown? ==>
              Dispatch(data, env, origin, oracle).events == [Event.Send(origin, ErrorReply("unknown_message_type"))]
    ensures Parse(env) == Message(PingMsg) ==>
              Dispatch(data, env, origin, oracle) == Reaction(data, [Event.Send(origin, Pong)])
    ensures Parse(env).Message? && !Parse(env).msg.PingMsg? ==>
      var r := Dispatch(data, env, origin, oracle);
      var s := Handled(data, Parse(env).msg, origin, oracle);
      && r.data == s.data
      && (s.outcome.Done? ==> r.events == s.events + Continuation(Parse(env).msg, origin))
      && (s.outcome.AppError? ==> r.events == s.events + [Event.Send(origin, ErrorReply(s.outcome.code))])
      && (s.outcome.Thrown? ==> r.events == s.events + [Event.Send(origin, ErrorReply("internal_server_error"))])
  {
  }

  /**
   * The replies the callback itself sends carry the wire types the client
   * tells apart: `error` for a refusal, `pong` for a ping.
   */
  lemma RepliesTagged(data: map<string, Record>, env: Envelope, origin: string, oracle: nat -> nat -> nat)
    requires WellTyped(data) && AttemptOracle(oracle)
    ensures var r := Dispatch(data, env, origin, oracle);
            !Parse(env).Message? ==>
              && |r.events| == 1 && r.events[0].Send? && r.events[0].socketId == origin
              && OutgoingTag(r.events[0].msg) == "error"
    ensures var r := Dispatch(data, env, origin, oracle);
            Parse(env) == Message(PingMsg) ==>
              && |r.events| == 1 && r.events[0].Send? && r.events[0].socketId == origin
              && OutgoingTag(r.events[0].msg) == "pong"
    ensures var r := Dispatch(data, env, origin, oracle);
            Parse(env).Message? && !Parse(env).msg.PingMsg?
            && !Handled(data, Parse(env).msg, origin, oracle).outcome.Done? ==>
              && |r.events| > 0 && r.events[|r.events| - 1].Send? && r.events[|r.events| - 1].socketId == origin
              && OutgoingTag(r.events[|r.events| - 1].msg) == "error"
  {
    DispatchOutcomes(data, env, origin, oracle);
  }

  /** A `create_room` without a truthy `roomName` stores a room named `Room_Name_Default`. */
  lemma MissingRoomNameDefaults(data: map<string, Record>, env: Envelope, origin: string, oracle: nat -> nat -> nat)
    requires WellTyped(data) && AttemptOracle(oracle)
    requires env.Object? && env.tag == Some("create_room") && !Truthy(env.body.roomName)
    requires RoomOf(data, env.body.roomId).None?
    ensures RoomOf(Dispatch(data, env, origin, oracle).data, env.body.roomId).Some?
    ensures RoomOf(Dispatch(data, env, origin, oracle).data, env.body.roomId).value.name == Some(DEFAULT_ROOM_NAME)
  {
    var m := CreateRoomMsg(env.body.roomId, env.body.roomName, env.body.adminId, env.body.adminName);
    assert Parse(env) == Message(m);
  }

  /** A completed `leave_room` is followed by the sender leaving the group and `left` to the room. */
  lemma LeaveRoomAnnounced(data: map<string, Record>, env: Envelope, origin: string, oracle: nat -> nat -> nat)
    requires WellTyped(data) && AttemptOracle(oracle)
    requires env.Object? && env.tag == Some("leave_room")
    ensures var s := LeaveRoom(data, env.body.roomId, env.body.clientId);
            var r := Dispatch(data, env, origin, oracle);
            s.outcome.Done? ==>
              r.events == s.events + [LeaveGroup(origin, env.body.roomId),
                                      ToRoom(env.body.roomId, Left(env.body.roomId, env.body.clientId))]
  {
    assert Parse(env) == Message(LeaveRoomMsg(env.body.roomId, env.body.clientId));
  }

  // ---------------------------------------------------------------------
  // One error envelope per refusal

  predicate IsErrorReply(e: Event) {
    (e.Send? || e.ToRoom?) && e.msg.ErrorReply?
  }

  /** How many `error` envelopes `events` holds. */
  function ErrorCount(events: seq<Event>): (n: nat)
    ensures n <= |events|
    ensures n == 0 <==> forall i :: 0 <= i < |events| ==> !IsErrorReply(events[i])
    decreases |events|
  {
    if |events| == 0 then 0
    else ErrorCount(events[1..]) + (if IsErrorReply(events[0]) then 1 else 0)
  }

  lemma {:induction false} ErrorCountAppend(a: seq<Event>, b: seq<Event>)
    ensures ErrorCount(a + b) == ErrorCount(a) + ErrorCount(b)
    decreases |a|
  {
    if |a| == 0 {
      assert a + b == b;
    } else {
      assert (a + b)[1..] == a[1..] + b;
      ErrorCountAppend(a[1..], b);
    }
  }

  /** The draw's events are `your_match` sends and at most one `draw_result_admin`. */
  lemma DrawSendsNoErrors(data: map<string, Record>, roomId: string, adminId: string, oracle: nat -> nat -> nat)
    requires WellTyped(data) && AttemptOracle(oracle)
    ensures ErrorCount(StartDraw(data, roomId, adminId, oracle).events) == 0
  {
    var s := StartDraw(data, roomId, adminId, oracle);
    var room := RoomOf(data, roomId);
    if room.Some? && room.value.adminId == adminId && |room.value.participants| >= 2 {
      var drawn := Generated(room.value.participants, oracle, FIRST_ATTEMPT);
      if drawn.Some? {
        var matches := MatchSends(drawn.value);
        var admin := AdminSend(drawn.value, adminId);
        assert s.events == matches + admin;
        forall i | 0 <= i < |s.events| ensures !IsErrorReply(s.events[i]) {
          if i < |matches| {
            assert s.events[i] in matches;
          } else {
            assert s.events[i] == admin[i - |matches|];
          }
        }
      }
    }
  }

  /** No service sends an `error` envelope itself: errors reach the client only through the callback. */
  lemma HandlersSendNoErrors(data: map<string, Record>, m: Incoming, origin: string, oracle: nat -> nat -> nat)
    requires WellTyped(data) && AttemptOracle(oracle) && !m.PingMsg?
    ensures ErrorCount(Handled(data, m, origin, oracle).events) == 0
  {
    match m
    case StartDrawMsg(roomId, adminId) =>
      DrawSendsNoErrors(data, roomId, adminId, oracle);
    case BroadcastMsg(roomId, adminId, message) =>
      var s := Broadcast(data, roomId, message, adminId);
      forall i | 0 <= i < |s.events| ensures !IsErrorReply(s.events[i]) {
      }
    case CreateRoomMsg(roomId, roomName, adminId, adminName) =>
      CreateSendsNoErrors(data, roomId, RoomNameOr(roomName), adminId, adminName, origin);
    case JoinRoomMsg(roomId, clientId, name) =>
      JoinSendsNoErrors(data, roomId, clientId, name, origin);
    case AddParticipantMsg(roomId, adminId, participantId, name) =>
      AddSendsNoErrors(data, roomId, adminId, participantId, name);
    case LeaveRoomMsg(roomId, clientId) =>
      LeaveSendsNoErrors(data, roomId, clientId);
  }

  // The other four services send only notifications, one lemma each.

  lemma CreateSendsNoErrors(data: map<string, Record>, roomId: string, name: string, adminId: string,
                            adminName: string, origin: string)
    requires WellTyped(data)
    ensures ErrorCount(CreateRoom(data, roomId, name, adminId, adminName, origin).events) == 0
  {
    var s := CreateRoom(data, roomId, name, adminId, adminName, origin);
    assert forall i :: 0 <= i < |s.events| ==> !IsErrorReply(s.events[i]);
  }

  lemma JoinSendsNoErrors(data: map<string, Record>, roomId: string, clientId: string, name: string, origin: string)
    requires WellTyped(data)
    ensures ErrorCount(JoinRoom(data, roomId, clientId, name, origin).events) == 0
  {
    var s := JoinRoom(data, roomId, clientId, name, origin);
    assert forall i :: 0 <= i < |s.events| ==> !IsErrorReply(s.events[i]);
  }

  lemma AddSendsNoErrors(data: map<string, Record>, roomId: string, adminId: string, participantId: string, name: string)
    requires WellTyped(data)
    ensures ErrorCount(AddParticipant(data, roomId, adminId, participantId, name).events) == 0
  {
    var s := AddParticipant(data, roomId, adminId, participantId, name);
    assert forall i :: 0 <= i < |s.events| ==> !IsErrorReply(s.events[i]);
  }

  lemma LeaveSendsNoErrors(data: map<string, Record>, roomId: string, clientId: string)
    requires WellTyped(data)
    ensures ErrorCount(LeaveRoom(data, roomId, clientId).events) == 0
  {
    var s := LeaveRoom(data, roomId, clientId);
    assert forall i :: 0 <= i < |s.events| ==> !IsErrorReply(s.events[i]);
  }

  /** The callback refuses the envelope, or the service it calls refuses the message. */
  predicate Refused(data: map<string, Record>, env: Envelope, origin: string, oracle: nat -> nat -> nat)
    requires WellTyped(data) && AttemptOracle(oracle)
  {
    match Parse(env)
    case Message(m) => !m.PingMsg? && !Handled(data, m, origin, oracle).outcome.Done?
    case _ => true
  }

  /** Every message gets exactly one `error` envelope when it is refused and none otherwise. */
  lemma OneErrorPerRefusal(data: map<string, Record>, env: Envelope, origin: string, oracle: nat -> nat -> nat)
    requires WellTyped(data) && AttemptOracle(oracle)
    ensures ErrorCount(Dispatch(data, env, origin, oracle).events) == (if Refused(data, env, origin, oracle) then 1 else 0)
  {
    var r := Dispatch(data, env, origin, oracle);
    match Parse(env)
    case Invalid =>
      assert ErrorCount(r.events) == ErrorCount(r.events[1..]) + 1;
    case Unknown(_) =>
      assert ErrorCount(r.events) == ErrorCount(r.events[1..]) + 1;
    case Message(m) =>
      if !m.PingMsg? {
        var s := Handled(data, m, origin, oracle);
        HandlersSendNoErrors(data, m, origin, oracle);
        if s.outcome.Done? {
          ErrorCountAppend(s.events, Continuation(m, origin));
          assert ErrorCount(Continuation(m, origin)) == 0;
        } else {
          var reply := [Event.Send(origin, ErrorReply(ErrorCode(s.outcome)))];
          ErrorCountAppend(s.events, reply);
          assert ErrorCount(reply) == ErrorCount(reply[1..]) + 1;
        }
      }
  }

  // ---------------------------------------------------------------------
  // The callback over the services

  class MessageRouter {
    const notifier: Notifier
    const createRoomService: CreateRoomService
    const joinRoomService: JoinRoomService
    const addParticipantService: AddParticipantService
    const leaveRoomService: LeaveRoomService
    const broadcastService: BroadcastService
    const starDrawService: StarDrawService

    constructor(notifier: Notifier, createRoomService: CreateRoomService, joinRoomService: JoinRoomService,
                addParticipantService: AddParticipantService, leaveRoomService: LeaveRoomService,
                broadcastService: BroadcastService, starDrawService: StarDrawService)
      ensures this.notifier == notifier && this.createRoomService == createRoomService
      ensures this.joinRoomService == joinRoomService && this.addParticipantService == addParticipantService
      ensures this.leaveRoomService == leaveRoomService && this.broadcastService == broadcastService
      ensures this.starDrawService == starDrawService
    {
      this.notifier := notifier;
      this.createRoomService := createRoomService;
      this.joinRoomService := joinRoomService;
      this.addParticipantService := addParticipantService;
      this.leaveRoomService := leaveRoomService;
      this.broadcastService := broadcastService;
      this.starDrawService := starDrawService;
    }

    /** The repository every service works on. */
    function Rooms(): RoomRepository {
      createRoomService.rooms
    }

    /** All services share one room repository and the router's notifier. */
    predicate Wired() {
      && joinRoomService.rooms == Rooms() && addParticipantService.rooms == Rooms()
      && leaveRoomService.rooms == Rooms() && broadcastService.rooms == Rooms()
      && starDrawService.rooms == Rooms()
      && createRoomService.notifier == notifier && joinRoomService.notifier == notifier
      && addParticipantService.notifier == notifier && leaveRoomService.notifier == notifier
      && broadcastService.notifier == notifier && starDrawService.notifier == notifier
    }

    /** `makeError`: one `error` envelope to the sender. */
    method MakeError(socketId: string, message: string)
      modifies notifier
      ensures notifier.log == old(notifier.log) + [Event.Send(socketId, ErrorReply(message))]
    {
      notifier.Send(socketId, ErrorReply(message));
    }

    /** The `message` callback for an envelope from socket `origin`. */
    method OnMessage(env: Envelope, origin: string, oracle: nat -> nat -> nat)
      requires Wired() && Rooms().Valid() && AttemptOracle(oracle)
      modifies Rooms().db, notifier
      ensures Rooms().Valid()
      ensures var r := Dispatch(old(Rooms().db.data), env, origin, oracle);
              Rooms().db.data == r.data && notifier.log == old(notifier.log) + r.events
    {
      if env.NotAnObject? || env.tag.None? {
        MakeError(origin, "invalid_message");
        return;
      }
      var routed := Parse(env);
      if routed.Unknown? {
        MakeError(origin, "unknown_message_type");
        return;
      }
      var m := routed.msg;
      if m.PingMsg? {
        notifier.Send(origin, Pong);
        return;
      }
      ServeAndReply(m, origin, oracle);
    }

    /** The service call, then the continuation or the error reply. */
    method ServeAndReply(m: Incoming, origin: string, oracle: nat -> nat -> nat)
      requires Wired() && Rooms().Valid() && AttemptOracle(oracle) && !m.PingMsg?
      modifies Rooms().db, notifier
      ensures Rooms().Valid()
      ensures var s := Handled(old(Rooms().db.data), m, origin, oracle);
              && Rooms().db.data == s.data
              && (s.outcome.Done? ==> notifier.log == old(notifier.log) + s.events + Continuation(m, origin))
              && (!s.outcome.Done? ==>
                    notifier.log == old(notifier.log) + s.events + [Event.Send(origin, ErrorReply(ErrorCode(s.outcome)))])
    {
      var outcome := Serve(m, origin, oracle);
      if outcome.Done? {
        if m.LeaveRoomMsg? {
          notifier.LeaveParticipantRoom(origin, m.roomId);
          notifier.SendMessageToRoom(m.roomId, Left(m.roomId, m.clientId));
        }
      } else {
        MakeError(origin, ErrorCode(outcome));
      }
    }

    /** The one service call of the branch that `m` takes. */
    method Serve(m: Incoming, origin: string, oracle: nat -> nat -> nat) returns (outcome: Outcome)
      requires Wired() && Rooms().Valid() && AttemptOracle(oracle) && !m.PingMsg?
      modifies Rooms().db, notifier
      ensures Rooms().Valid()
      ensures var s := Handled(old(Rooms().db.data), m, origin, oracle);
              outcome == s.outcome && Rooms().db.data == s.data && notifier.log == old(notifier.log) + s.events
    {
      match m
      case CreateRoomMsg(roomId, roomName, adminId, adminName) =>
        outcome := createRoomService.Handle(roomId, RoomNameOr(roomName), adminId, adminName, origin);
      case JoinRoomMsg(roomId, clientId, name) =>
        outcome := joinRoomService.Handle(roomId, clientId, name, origin);
      case AddParticipantMsg(roomId, adminId, participantId, name) =>
        outcome := addParticipantService.Handle(roomId, adminId, participantId, name);
      case LeaveRoomMsg(roomId, clientId) =>
        outcome := leaveRoomService.Handle(roomId, clientId);
      case BroadcastMsg(roomId, adminId, message) =>
        outcome := broadcastService.Handle(roomId, message, adminId);
      case StartDrawMsg(roomId, adminId) =>
        outcome := starDrawService.Handle(roomId, adminId, oracle);
    }
  }
}
