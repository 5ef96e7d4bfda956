/**
 * The two collaborators of the core, as plain state.
 *
 * `Store` is the key-value store behind IDatabaseProvider
 * (src/providers/IDatabaseProvider.ts): a map from key to stored record.
 * JSON encoding is not modelled, so a stored value is the record itself.
 *
 * `Notifier` is the notifier behind INotifierProvider
 * (src/providers/INotifierProvider.ts): an append-only log of the outbound
 * events the services ask it for.
 */
module Providers {
  import opened Types

  /** A stored document: a room under a `room:` key, a user under a `user:` key. */
  datatype Record = RoomRecord(room: Room) | UserRecord(user: User)

  /** One outbound action of the notifier. */
  datatype Event =
    | Send(socketId: string, msg: Outgoing)
    | ToRoom(roomId: string, msg: Outgoing)
    | JoinGroup(socketId: string, roomId: string)
    | LeaveGroup(socketId: string, roomId: string)
    | Track(socketId: string, userId: string, roomId: string, userName: string)
    | Untrack(socketId: string)

  /** `getData(key)`: the stored value, or null. */
  function Lookup(data: map<string, Record>, key: string): (r: Option<Record>)
    ensures r.Some? <==> key in data
    ensures r.Some? ==> data[key] == r.value
  {
    if key in data then Some(data[key]) else None
  }

  class Store {
    var data: map<string, Record>

    constructor(init: map<string, Record>)
      ensures data == init
    {
      data := init;
    }

    method GetData(key: string) returns (r: Option<Record>)
      ensures r == Lookup(data, key)
    {
      r := if key in data then Some(data[key]) else None;
    }

    method CheckIfExists(key: string) returns (b: bool)
      ensures b <==> key in data
    {
      b := key in data;
    }

    method SetData(key: string, value: Record)
      modifies this
      ensures data == old(data)[key := value]
    {
      data := data[key := value];
    }

    method DeleteData(key: string)
      modifies this
      ensures data == old(data) - {key}
    {
      data := data - {key};
    }
  }

  class Notifier {
    var log: seq<Event>

    constructor()
      ensures log == []
    {
      log := [];
    }

    method Send(socketId: string, msg: Outgoing)
      modifies this
      ensures log == old(log) + [Event.Send(socketId, msg)]
    {
      log := log + [Event.Send(socketId, msg)];
    }

    method SendMessageToRoom(roomId: string, msg: Outgoing)
      modifies this
      ensures log == old(log) + [ToRoom(roomId, msg)]
    {
      log := log + [ToRoom(roomId, msg)];
    }

    method JoinParticipantRoom(socketId: string, roomId: string)
      modifies this
      ensures log == old(log) + [JoinGroup(socketId, roomId)]
    {
      log := log + [JoinGroup(socketId, roomId)];
    }

    method LeaveParticipantRoom(socketId: string, roomId: string)
      modifies this
      ensures log == old(log) + [LeaveGroup(socketId, roomId)]
    {
      log := log + [LeaveGroup(socketId, roomId)];
    }

    method TrackUserRoom(socketId: string, userId: string, roomId: string, userName: string)
      modifies this
      ensures log == old(log) + [Track(socketId, userId, roomId, userName)]
    {
      log := log + [Track(socketId, userId, roomId, userName)];
    }

    method UntrackUserRoom(socketId: string)
      modifies this
      ensures log == old(log) + [Untrack(socketId)]
    {
      log := log + [Untrack(socketId)];
    }
  }
}
