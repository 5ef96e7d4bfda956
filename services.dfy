/**
 * The services of src/services as objects over a room (and user) repository
 * and a notifier. Each `Handle` performs the source's steps in order against
 * the store and the notifier, and is proved to leave the store, the event log
 * and its outcome exactly as the matching function of module Transitions says.
 */
module Services {
  import opened Types
  import opened Providers
  import opened Repositories
  import opened Draw
  import opened Transitions

  class CreateRoomService {
    const rooms: RoomRepository
    const notifier: Notifier

    constructor(rooms: RoomRepository, notifier: Notifier)
      ensures this.rooms == rooms && this.notifier == notifier
    {
      this.rooms := rooms;
      this.notifier := notifier;
    }

    method Handle(roomId: string, roomName: string, adminId: string, adminName: string, socketId: string)
      returns (outcome: Outcome)
      requires rooms.Valid()
      modifies rooms.db, notifier
      ensures rooms.Valid()
      ensures var s := CreateRoom(old(rooms.db.data), roomId, roomName, adminId, adminName, socketId);
              outcome == s.outcome && rooms.db.data == s.data && notifier.log == old(notifier.log) + s.events
    {
      var roomAlreadyExists := rooms.Exists(roomId);
      if roomAlreadyExists {
        return AppError("room_already_exists");
      }
      var room := Room(roomId, Some(roomName), adminId,
                       [Participant(adminId, adminName, Some(true), Some(socketId))], None);
      var newRoom := rooms.NewRoom(room.id, room);
      notifier.JoinParticipantRoom(socketId, roomId);
      notifier.Send(socketId, RoomCreated(roomId));
      notifier.Send(socketId, Joined(roomId, newRoom.value.participants));
      return Done;
    }
  }

  class JoinRoomService {
    const rooms: RoomRepository
    const notifier: Notifier

    constructor(rooms: RoomRepository, notifier: Notifier)
      ensures this.rooms == rooms && this.notifier == notifier
    {
      this.rooms := rooms;
      this.notifier := notifier;
    }

    /** Writes only the notifier: the appended list lives in the local copy. */
    method Handle(roomId: string, clientId: string, name: string, socketId: string) returns (outcome: Outcome)
      requires rooms.Valid()
      modifies notifier
      ensures var s := JoinRoom(rooms.db.data, roomId, clientId, name, socketId);
              outcome == s.outcome && notifier.log == old(notifier.log) + s.events
    {
      var room := rooms.FindRoom(roomId);
      if room.None? {
        return AppError("room_not_found");
      }
      var participantAlreadyExists := Find(room.value.participants, clientId);
      if participantAlreadyExists.Some? {
        return AppError("client_id_already_in_room");
      }
      var newParticipant := Participant(clientId, name, None, Some(socketId));
      var participants := room.value.participants + [newParticipant];
      notifier.JoinParticipantRoom(socketId, roomId);
      notifier.Send(socketId, Joined(roomId, participants));
      notifier.SendMessageToRoom(roomId, ParticipantAdded(newParticipant));
      return Done;
    }
  }

  class AddParticipantService {
    const rooms: RoomRepository
    const notifier: Notifier

    constructor(rooms: RoomRepository, notifier: Notifier)
      ensures this.rooms == rooms && this.notifier == notifier
    {
      this.rooms := rooms;
      this.notifier := notifier;
    }

    method Handle(roomId: string, adminId: string, participantId: string, participantName: string)
      returns (outcome: Outcome)
      requires rooms.Valid()
      modifies rooms.db, notifier
      ensures rooms.Valid()
      ensures var s := AddParticipant(old(rooms.db.data), roomId, adminId, participantId, participantName);
              outcome == s.outcome && rooms.db.data == s.data && notifier.log == old(notifier.log) + s.events
    {
      var room := rooms.FindRoom(roomId);
      if room.None? {
        return AppError("room_not_found");
      }
      if room.value.adminId != adminId {
        return AppError("only_admin_can_add");
      }
      var participantAlreadyExists := Find(room.value.participants, participantId);
      if participantAlreadyExists.Some? {
        return AppError("participant_already_exists");
      }
      var newParticipant := Participant(participantId, participantName, None, None);
      var update := room.value.(participants := room.value.participants + [newParticipant]);
      var written := rooms.UpdateRoom(roomId, update);
      if written.Failure? {
        return Thrown(written.message);
      }
      notifier.SendMessageToRoom(roomId, ParticipantAdded(newParticipant));
      // the log line after the send reads an undeclared `name` and throws
      return Thrown("name is not defined");
    }
  }

  class LeaveRoomService {
    const rooms: RoomRepository
    const notifier: Notifier

    constructor(rooms: RoomRepository, notifier: Notifier)
      ensures this.rooms == rooms && this.notifier == notifier
    {
      this.rooms := rooms;
      this.notifier := notifier;
    }

    method Handle(roomId: string, participantId: string) returns (outcome: Outcome)
      requires rooms.Valid()
      modifies rooms.db, notifier
      ensures rooms.Valid()
      ensures var s := LeaveRoom(old(rooms.db.data), roomId, participantId);
              outcome == s.outcome && rooms.db.data == s.data && notifier.log == old(notifier.log) + s.events
    {
      var room := rooms.FindRoom(roomId);
      if room.None? {
        return AppError("room_not_found");
      }
      var roomUpdated := RemoveId(room.value.participants, participantId);
      var written := rooms.UpdateRoom(roomId, room.value.(participants := roomUpdated));
      if written.Failure? {
        return Thrown(written.message);
      }
      var user := Find(room.value.participants, participantId);
      if user.None? {
        return AppError("participant_not_found");
      }
      notifier.LeaveParticipantRoom(OrEmpty(user.value.socketId), roomId);
      notifier.SendMessageToRoom(roomId, LeftWithName(user.value.name, participantId));
      notifier.UntrackUserRoom(OrEmpty(user.value.socketId));
      return Done;
    }
  }

  class BroadcastService {
    const rooms: RoomRepository
    const notifier: Notifier

    constructor(rooms: RoomRepository, notifier: Notifier)
      ensures this.rooms == rooms && this.notifier == notifier
    {
      this.rooms := rooms;
      this.notifier := notifier;
    }

    method Handle(roomId: string, message: string, adminId: string) returns (outcome: Outcome)
      requires rooms.Valid()
      modifies notifier
      ensures var s := Broadcast(rooms.db.data, roomId, message, adminId);
              outcome == s.outcome && notifier.log == old(notifier.log) + s.events
    {
      var room := rooms.FindRoom(roomId);
      if room.None? {
        return AppError("room_not_found");
      }
      var admin := Find(room.value.participants, adminId);
      if admin.None? {
        return AppError("admin_not_in_room");
      }
      notifier.SendMessageToRoom(roomId, BroadcastReply(admin.value, message));
      return Done;
    }
  }

  class GetRoomByIdService {
    const rooms: RoomRepository
    const notifier: Notifier

    constructor(rooms: RoomRepository, notifier: Notifier)
      ensures this.rooms == rooms && this.notifier == notifier
    {
      this.rooms := rooms;
      this.notifier := notifier;
    }

    method Handle(roomId: string, adminId: string, socketId: string) returns (outcome: Outcome)
      requires rooms.Valid()
      modifies notifier
      ensures var s := GetRoomById(rooms.db.data, roomId, adminId, socketId);
              outcome == s.outcome && notifier.log == old(notifier.log) + s.events
    {
      var roomFound := rooms.FindRoom(roomId);
      if roomFound.None? {
        return AppError("room_not_found");
      }
      if roomFound.value.adminId != adminId {
        return AppError("not_authorized");
      }
      notifier.Send(socketId, RoomFound(roomFound.value));
      return Done;
    }
  }

  class GetResultByTokenService {
    const rooms: RoomRepository
    const notifier: Notifier
    /** The token check under the configured secret: a payload, or None when it throws. */
    const verify: string -> Option<TokenPayload>

    constructor(rooms: RoomRepository, notifier: Notifier, verify: string -> Option<TokenPayload>)
      ensures this.rooms == rooms && this.notifier == notifier && this.verify == verify
    {
      this.rooms := rooms;
      this.notifier := notifier;
      this.verify := verify;
    }

    method Handle(roomId: string, socketId: string, token: string) returns (outcome: Outcome)
      requires rooms.Valid()
      modifies notifier
      ensures var s := GetResultByToken(rooms.db.data, roomId, socketId, token, verify);
              outcome == s.outcome && notifier.log == old(notifier.log) + s.events
    {
      var roomFound := rooms.FindRoom(roomId);
      if roomFound.None? {
        return AppError("room_not_found");
      }
      var participants := roomFound.value.participants;
      if roomFound.value.secretList.None? {
        return AppError("no_draw_result");
      }
      var verified := verify(token);
      if verified.None? {
        return AppError("invalid_token");
      }
      var payload := verified.value;
      var toUser := Find(participants, payload.to);
      var fromUser := Find(participants, payload.from);
      if toUser.None? || fromUser.None? {
        return AppError("user_not_found");
      }
      notifier.Send(socketId, ResultReply(toUser.value.name, fromUser.value.name));
      return Done;
    }
  }

  class StarDrawService {
    const rooms: RoomRepository
    const notifier: Notifier

    constructor(rooms: RoomRepository, notifier: Notifier)
      ensures this.rooms == rooms && this.notifier == notifier
    {
      this.rooms := rooms;
      this.notifier := notifier;
    }

    /** `oracle` stands for the calls to `Math.random()` the draw makes. */
    method Handle(roomId: string, adminId: string, oracle: nat -> nat -> nat) returns (outcome: Outcome)
      requires rooms.Valid() && AttemptOracle(oracle)
      modifies notifier
      ensures var s := StartDraw(rooms.db.data, roomId, adminId, oracle);
              outcome == s.outcome && notifier.log == old(notifier.log) + s.events
    {
      var room := rooms.FindRoom(roomId);
      if room.None? {
        return AppError("room_not_found");
      }
      if room.value.adminId != adminId {
        return AppError("only_admin_can_start_draw");
      }
      var participants := room.value.participants;
      if |participants| < 2 {
        return AppError("need_at_least_two_participants");
      }
      outcome := DrawAndAnnounce(participants, adminId, oracle);
    }

    /** The tail of `handle` once the checks pass: draw, then announce or refuse. */
    method DrawAndAnnounce(participants: seq<Participant>, adminId: string, oracle: nat -> nat -> nat)
      returns (outcome: Outcome)
      requires AttemptOracle(oracle)
      modifies notifier
      ensures var drawn := Generated(participants, oracle, FIRST_ATTEMPT);
              && (drawn.None? ==> outcome == AppError("could_not_generate_mapping") && notifier.log == old(notifier.log))
              && (drawn.Some? ==> outcome == Done
                                  && notifier.log == old(notifier.log) + MatchSends(drawn.value) + AdminSend(drawn.value, adminId))
    {
      var drawn := GenerateValidMapping(participants, oracle);
      if drawn.None? {
        return AppError("could_not_generate_mapping");
      }
      var mapping := drawn.value;
      Announce(mapping, adminId);
      return Done;
    }

    /** The sends that follow a successful draw: the matches, then the admin's copy. */
    method Announce(mapping: seq<Pair>, adminId: string)
      modifies notifier
      ensures notifier.log == old(notifier.log) + MatchSends(mapping) + AdminSend(mapping, adminId)
    {
      SendMatches(mapping);
      var adminSocketId := FindFrom(mapping, adminId);
      if adminSocketId.Some? && Truthy(adminSocketId.value.from.socketId) {
        notifier.Send(adminSocketId.value.from.socketId.value, DrawResultAdmin(mapping));
      }
    }

    /** The loop over the mapping: `your_match` to each line's `from` socket, when it has one. */
    method SendMatches(mapping: seq<Pair>)
      modifies notifier
      ensures notifier.log == old(notifier.log) + MatchSends(mapping)
    {
      for i := 0 to |mapping|
        invariant notifier.log == old(notifier.log) + MatchSends(mapping[..i])
      {
        assert mapping[..i + 1][..i] == mapping[..i];
        var line := mapping[i];
        if Truthy(line.from.socketId) {
          notifier.Send(line.from.socketId.value, YourMatch(line.to));
        }
      }
      assert mapping[..|mapping|] == mapping;
    }
  }

  class ConnectNotificationService {
    const users: UserRepository
    const rooms: RoomRepository
    const notifier: Notifier

    constructor(users: UserRepository, rooms: RoomRepository, notifier: Notifier)
      ensures this.users == users && this.rooms == rooms && this.notifier == notifier
    {
      this.users := users;
      this.rooms := rooms;
      this.notifier := notifier;
    }

    /** Both repositories work on one store. */
    ghost predicate Valid()
      reads users.db, rooms.db
    {
      users.db == rooms.db && users.Valid()
    }

    method Handler(user: User, socketId: string, roomId: Option<string>)
      requires Valid()
      modifies users.db, notifier
      ensures Valid()
      ensures var s := ConnectNotification(old(users.db.data), user, socketId, roomId);
              users.db.data == s.data && notifier.log == old(notifier.log) + s.events
    {
      var userFound := users.FindById(user.id);
      var roomFound := rooms.FindRoom(OrEmpty(roomId));
      if userFound.None? {
        var withSocket := user.(socketId := Some(socketId));
        var created := users.New(withSocket);
        if roomFound.Some? {
          notifier.JoinParticipantRoom(socketId, roomFound.value.id);
          notifier.TrackUserRoom(socketId, user.id, roomFound.value.id, user.name);
        }
        return;
      }
      var withSocket := userFound.value.(socketId := Some(socketId));
      var updated := users.Update(user.id, withSocket);
      if roomFound.Some? {
        notifier.JoinParticipantRoom(socketId, roomFound.value.id);
        notifier.TrackUserRoom(socketId, user.id, roomFound.value.id, user.name);
      }
    }
  }

  class UpdateUserPresenceService {
    const notifier: Notifier

    constructor(notifier: Notifier)
      ensures this.notifier == notifier
    {
      this.notifier := notifier;
    }

    /** `online` is the notifier's answer to `getOnlineUsersInRoom(roomId)`. */
    method NotifyUserOnline(roomId: string, userId: string, online: seq<OnlineUser>)
      modifies notifier
      ensures notifier.log == old(notifier.log) + Transitions.NotifyUserOnline(roomId, userId, online)
    {
      var onlineUsers := Statuses(online);
      notifier.SendMessageToRoom(roomId, UsersStatus(onlineUsers));
    }

    /** `online` is the notifier's answer to `getOnlineUsersInRoom(roomId)`. */
    method NotifyUserOffline(roomId: string, userId: string, online: seq<OnlineUser>)
      modifies notifier
      ensures notifier.log == old(notifier.log) + Transitions.NotifyUserOffline(roomId, userId, online)
    {
      var onlineUsers := Statuses(online);
      notifier.SendMessageToRoom(roomId, UsersStatus(onlineUsers));
    }
  }
}
