/**
 * The repository facades of src/repositories: create, read, update and
 * delete over prefixed keys of the store, `room:<id>` for rooms and
 * `user:<id>` for users.
 *
 * The effect of each operation on the store is a function on the map
 * (`RoomOf`, `RoomUpdated`, ...); the classes `RoomRepository` and
 * `UserRepository` perform the same operations through a `Store` and are
 * proved to agree with those functions.
 */
module Repositories {
  import opened Types
  import opened Providers

  function RoomKey(id: string): (k: string)
    ensures |k| == |id| + 5 && k[..5] == "room:" && k[5..] == id
  {
    "room:" + id
  }

  function UserKey(id: string): (k: string)
    ensures |k| == |id| + 5 && k[..5] == "user:" && k[5..] == id
  {
    "user:" + id
  }

  predicate IsRoomKey(k: string) {
    |k| >= 5 && k[..5] == "room:"
  }

  predicate IsUserKey(k: string) {
    |k| >= 5 && k[..5] == "user:"
  }

  /** Distinct ids give distinct keys, and no room key is a user key. */
  lemma KeysAreDistinct(a: string, b: string)
    ensures RoomKey(a) == RoomKey(b) <==> a == b
    ensures UserKey(a) == UserKey(b) <==> a == b
    ensures RoomKey(a) != UserKey(b)
  {
    assert RoomKey(a)[0] == 'r' && UserKey(b)[0] == 'u';
  }

  /** The room key of an id is a room key and not a user key. */
  lemma RoomKeyShape(id: string)
    ensures IsRoomKey(RoomKey(id)) && !IsUserKey(RoomKey(id))
  {
    assert RoomKey(id)[0] == 'r';
  }

  /** The user key of an id is a user key and not a room key. */
  lemma UserKeyShape(id: string)
    ensures IsUserKey(UserKey(id)) && !IsRoomKey(UserKey(id))
  {
    assert UserKey(id)[0] == 'u';
  }

  /** Every room key holds a room, every user key a user. */
  ghost predicate WellTyped(data: map<string, Record>) {
    forall k :: k in data ==>
      (IsRoomKey(k) ==> data[k].RoomRecord?) && (IsUserKey(k) ==> data[k].UserRecord?)
  }

  /** A field of the update wins when present; otherwise the current one stays. */
  function Override<T>(current: Option<T>, update: Option<T>): Option<T> {
    if update.Some? then update else current
  }

  /**
   * `{...current, ...update}` with a room as the update. Every field the
   * update carries overrides the current document; an absent optional field
   * keeps the current one. When the current document is a user, its name
   * plays the room's name.
   */
  function MergeRoom(current: Record, update: Room): (r: Room)
    ensures r.id == update.id && r.adminId == update.adminId && r.participants == update.participants
    ensures update.name.Some? ==> r.name == update.name
    ensures update.secretList.Some? ==> r.secretList == update.secretList
    ensures current.RoomRecord? && update.name.None? ==> r.name == current.room.name
    ensures current.RoomRecord? && update.secretList.None? ==> r.secretList == current.room.secretList
  {
    match current
    case RoomRecord(c) =>
      Room(update.id, Override(c.name, update.name), update.adminId, update.participants,
           Override(c.secretList, update.secretList))
    case UserRecord(u) =>
      Room(update.id, Override(Some(u.name), update.name), update.adminId, update.participants,
           update.secretList)
  }

  /** `{...current, ...user}` between two users. */
  function MergeUser(current: User, update: User): (r: User)
    ensures r.id == update.id && r.name == update.name
    ensures r.socketId == (if update.socketId.Some? then update.socketId else current.socketId)
  {
    User(update.id, update.name, Override(current.socketId, update.socketId))
  }

  /** An update that carries every optional field replaces the document. */
  lemma CompleteUpdateReplaces(current: Record, update: Room)
    requires update.name.Some? && update.secretList.Some?
    ensures MergeRoom(current, update) == update
  {
  }

  // ---------------------------------------------------------------------
  // RoomRepository as functions on the store

  /** `findRoom(id)`: the room stored under `room:<id>`, or null. */
  function RoomOf(data: map<string, Record>, id: string): (r: Option<Room>)
    requires WellTyped(data)
    ensures r.Some? <==> RoomKey(id) in data
    ensures r.Some? ==> data[RoomKey(id)] == RoomRecord(r.value)
  {
    RoomKeyShape(id);
    var k := RoomKey(id);
    if k in data && data[k].RoomRecord? then Some(data[k].room) else None
  }

  /** `newRoom(id, room)`: fails when `room:<id>` is taken, else stores the room there. */
  function RoomInserted(data: map<string, Record>, id: string, room: Room): (r: Result<map<string, Record>>)
    requires WellTyped(data)
    ensures r.Failure? <==> RoomKey(id) in data
    ensures r.Failure? ==> r.message == "Room already exists"
    ensures r.Ok? ==> WellTyped(r.value) && RoomOf(r.value, id) == Some(room)
    ensures r.Ok? ==> r.value.Keys == data.Keys + {RoomKey(id)}
    ensures r.Ok? ==> forall k :: k in data ==> r.value[k] == data[k]
  {
    RoomKeyShape(id);
    if RoomKey(id) in data then Failure("Room already exists")
    else Ok(data[RoomKey(id) := RoomRecord(room)])
  }

  /**
   * `updateRoom(roomId, update)`: the current document is read under the
   * raw key `roomId`, not under `room:<roomId>`; when that key is absent the
   * call fails with "Room not found". Otherwise the merge is written under
   * `room:<roomId>`, and every other key keeps its value.
   */
  function RoomUpdated(data: map<string, Record>, roomId: string, update: Room): (r: Result<map<string, Record>>)
    requires WellTyped(data)
    ensures r.Failure? <==> roomId !in data
    ensures r.Failure? ==> r.message == "Room not found"
    ensures r.Ok? ==> WellTyped(r.value) && RoomOf(r.value, roomId) == Some(MergeRoom(data[roomId], update))
    ensures r.Ok? ==> r.value.Keys == data.Keys + {RoomKey(roomId)}
    ensures r.Ok? ==> forall k :: k in data && k != RoomKey(roomId) ==> r.value[k] == data[k]
  {
    RoomKeyShape(roomId);
    if roomId !in data then Failure("Room not found")
    else Ok(data[RoomKey(roomId) := RoomRecord(MergeRoom(data[roomId], update))])
  }

  /** `deleteRoom(id)`: removes `room:<id>` and nothing else. */
  function RoomDeleted(data: map<string, Record>, id: string): (r: map<string, Record>)
    requires WellTyped(data)
    ensures WellTyped(r) && RoomOf(r, id).None?
    ensures r.Keys == data.Keys - {RoomKey(id)}
    ensures forall k :: k in r ==> r[k] == data[k]
  {
    data - {RoomKey(id)}
  }

  /**
   * In a store whose keys all carry a prefix, an id without one is never a
   * key, so `updateRoom` fails for it even when the room exists.
   */
  lemma PlainIdUpdateFails(data: map<string, Record>, roomId: string, update: Room)
    requires WellTyped(data)
    requires forall k :: k in data ==> IsRoomKey(k) || IsUserKey(k)
    requires !IsRoomKey(roomId) && !IsUserKey(roomId)
    ensures RoomUpdated(data, roomId, update) == Failure("Room not found")
  {
  }

  // ---------------------------------------------------------------------
  // UserRepository as functions on the store

  /** `findById(id)`: the user stored under `user:<id>`, or null. */
  function UserOf(data: map<string, Record>, id: string): (r: Option<User>)
    requires WellTyped(data)
    ensures r.Some? <==> UserKey(id) in data
    ensures r.Some? ==> data[UserKey(id)] == UserRecord(r.value)
  {
    UserKeyShape(id);
    var k := UserKey(id);
    if k in data && data[k].UserRecord? then Some(data[k].user) else None
  }

  /** `new(user)`: fails when `user:<user.id>` is taken, else stores the user there. */
  function UserInserted(data: map<string, Record>, user: User): (r: Result<map<string, Record>>)
    requires WellTyped(data)
    ensures r.Failure? <==> UserKey(user.id) in data
    ensures r.Failure? ==> r.message == "User already exists"
    ensures r.Ok? ==> WellTyped(r.value) && UserOf(r.value, user.id) == Some(user)
    ensures r.Ok? ==> r.value.Keys == data.Keys + {UserKey(user.id)}
    ensures r.Ok? ==> forall k :: k in data ==> r.value[k] == data[k]
  {
    UserKeyShape(user.id);
    if UserKey(user.id) in data then Failure("User already exists")
    else Ok(data[UserKey(user.id) := UserRecord(user)])
  }

  /**
   * `update(userId, user)`: unlike rooms, the current document is read under
   * the prefixed key `user:<userId>`; absent, the call fails with "User not
   * found", otherwise the merge is written back under the same key.
   */
  function UserUpdated(data: map<string, Record>, userId: string, user: User): (r: Result<map<string, Record>>)
    requires WellTyped(data)
    ensures r.Failure? <==> UserKey(userId) !in data
    ensures r.Failure? ==> r.message == "User not found"
    ensures r.Ok? ==> WellTyped(r.value)
    ensures r.Ok? ==> UserOf(r.value, userId) == Some(MergeUser(UserOf(data, userId).value, user))
    ensures r.Ok? ==> r.value.Keys == data.Keys
    ensures r.Ok? ==> forall k :: k in data && k != UserKey(userId) ==> r.value[k] == data[k]
  {
    UserKeyShape(userId);
    var k := UserKey(userId);
    if k !in data then Failure("User not found")
    else Ok(data[k := UserRecord(MergeUser(data[k].user, user))])
  }

  /** `delete(id)`: removes `user:<id>` and nothing else. */
  function UserDeleted(data: map<string, Record>, id: string): (r: map<string, Record>)
    requires WellTyped(data)
    ensures WellTyped(r) && UserOf(r, id).None?
    ensures r.Keys == data.Keys - {UserKey(id)}
    ensures forall k :: k in r ==> r[k] == data[k]
  {
    data - {UserKey(id)}
  }

  /** `listAllById(ids)`: the stored users for `ids`, in order, missing ids skipped. */
  function UsersListed(data: map<string, Record>, ids: seq<string>): (r: seq<User>)
    requires WellTyped(data)
    ensures |r| <= |ids|
    ensures forall u :: u in r ==> exists id :: id in ids && UserOf(data, id) == Some(u)
    decreases |ids|
  {
    if |ids| == 0 then []
    else
      var prefix := UsersListed(data, ids[..|ids| - 1]);
      var last := ids[|ids| - 1];
      assert forall id :: id in ids[..|ids| - 1] ==> id in ids;
      match UserOf(data, last)
      case Some(u) => prefix + [u]
      case None => prefix
  }

  /** One id lists its stored user, or nothing when the id is missing. */
  lemma UsersListedSingle(data: map<string, Record>, id: string)
    requires WellTyped(data)
    ensures UserOf(data, id).Some? ==> UsersListed(data, [id]) == [UserOf(data, id).value]
    ensures UserOf(data, id).None? ==> UsersListed(data, [id]) == []
  {
    assert [id][..0] == [];
  }

  /** The list distributes over concatenation of the ids: order of `ids` kept, missing ids skipped. */
  lemma {:induction false} UsersListedAppend(data: map<string, Record>, a: seq<string>, b: seq<string>)
    requires WellTyped(data)
    ensures UsersListed(data, a + b) == UsersListed(data, a) + UsersListed(data, b)
    decreases |b|
  {
    if |b| == 0 {
      assert a + b == a;
    } else {
      var ab := a + b;
      var init := b[..|b| - 1];
      assert ab[..|ab| - 1] == a + init;
      assert ab[|ab| - 1] == b[|b| - 1];
      UsersListedAppend(data, a, init);
    }
  }

  /** When every id is stored, the list holds one user per id, in the order of `ids`. */
  lemma {:induction false} AllStoredUsersListed(data: map<string, Record>, ids: seq<string>)
    requires WellTyped(data)
    requires forall id :: id in ids ==> UserKey(id) in data
    ensures |UsersListed(data, ids)| == |ids|
    ensures forall i :: 0 <= i < |ids| ==> Some(UsersListed(data, ids)[i]) == UserOf(data, ids[i])
    decreases |ids|
  {
    if |ids| > 0 {
      var init := ids[..|ids| - 1];
      assert forall id :: id in init ==> id in ids;
      AllStoredUsersListed(data, init);
      var r := UsersListed(data, ids);
      forall i | 0 <= i < |ids| ensures Some(r[i]) == UserOf(data, ids[i]) {
        if i < |ids| - 1 {
          assert ids[i] == init[i];
        }
      }
    }
  }

  /** Room operations never touch what `findById` sees, and user operations never touch rooms. */
  lemma RoomsAndUsersAreIndependent(data: map<string, Record>, roomId: string, room: Room, userId: string, user: User)
    requires WellTyped(data)
    ensures RoomInserted(data, roomId, room).Ok? ==>
            UserOf(RoomInserted(data, roomId, room).value, userId) == UserOf(data, userId)
    ensures UserInserted(data, user).Ok? ==>
            RoomOf(UserInserted(data, user).value, roomId) == RoomOf(data, roomId)
    ensures UserOf(RoomDeleted(data, roomId), userId) == UserOf(data, userId)
    ensures RoomOf(UserDeleted(data, userId), roomId) == RoomOf(data, roomId)
  {
    KeysAreDistinct(roomId, userId);
    KeysAreDistinct(roomId, user.id);
  }

  // ---------------------------------------------------------------------
  // The repository classes

  class RoomRepository {
    const db: Store

    constructor(db: Store)
      ensures this.db == db
    {
      this.db := db;
    }

    ghost predicate Valid()
      reads db
    {
      WellTyped(db.data)
    }

    method NewRoom(roomId: string, data: Room) returns (r: Result<Room>)
      requires Valid()
      modifies db
      ensures Valid()
      ensures var s := RoomInserted(old(db.data), roomId, data);
              (s.Failure? ==> r == Failure(s.message) && db.data == old(db.data))
              && (s.Ok? ==> r == Ok(data) && db.data == s.value)
    {
      var taken := db.CheckIfExists(RoomKey(roomId));
      if taken {
        return Failure("Room already exists");
      }
      db.SetData(RoomKey(roomId), RoomRecord(data));
      return Ok(data);
    }

    method FindRoom(roomId: string) returns (r: Option<Room>)
      requires Valid()
      ensures r == RoomOf(db.data, roomId)
    {
      var d := db.GetData(RoomKey(roomId));
      r := if d.Some? && d.value.RoomRecord? then Some(d.value.room) else None;
    }

    method Exists(roomId: string) returns (b: bool)
      requires Valid()
      ensures b <==> RoomOf(db.data, roomId).Some?
    {
      b := db.CheckIfExists(RoomKey(roomId));
    }

    method UpdateRoom(roomId: string, update: Room) returns (r: Result<()>)
      requires Valid()
      modifies db
      ensures Valid()
      ensures var s := RoomUpdated(old(db.data), roomId, update);
              (s.Failure? ==> r == Failure(s.message) && db.data == old(db.data))
              && (s.Ok? ==> r == Ok(()) && db.data == s.value)
    {
      var current := db.GetData(roomId);
      if current.None? {
        return Failure("Room not found");
      }
      db.SetData(RoomKey(roomId), RoomRecord(MergeRoom(current.value, update)));
      return Ok(());
    }

    method DeleteRoom(roomId: string)
      requires Valid()
      modifies db
      ensures Valid()
      ensures db.data == RoomDeleted(old(db.data), roomId)
    {
      db.DeleteData(RoomKey(roomId));
    }
  }

  class UserRepository {
    const db: Store

    constructor(db: Store)
      ensures this.db == db
    {
      this.db := db;
    }

    ghost predicate Valid()
      reads db
    {
      WellTyped(db.data)
    }

    method New(user: User) returns (r: Result<()>)
      requires Valid()
      modifies db
      ensures Valid()
      ensures var s := UserInserted(old(db.data), user);
              (s.Failure? ==> r == Failure(s.message) && db.data == old(db.data))
              && (s.Ok? ==> r == Ok(()) && db.data == s.value)
    {
      var taken := db.CheckIfExists(UserKey(user.id));
      if taken {
        return Failure("User already exists");
      }
      db.SetData(UserKey(user.id), UserRecord(user));
      return Ok(());
    }

    method FindById(id: string) returns (r: Option<User>)
      requires Valid()
      ensures r == UserOf(db.data, id)
    {
      var d := db.GetData(UserKey(id));
      r := if d.Some? && d.value.UserRecord? then Some(d.value.user) else None;
    }

    method Exists(id: string) returns (b: bool)
      requires Valid()
      ensures b <==> UserOf(db.data, id).Some?
    {
      b := db.CheckIfExists(UserKey(id));
    }

    method Update(userId: string, user: User) returns (r: Result<()>)
      requires Valid()
      modifies db
      ensures Valid()
      ensures var s := UserUpdated(old(db.data), userId, user);
              (s.Failure? ==> r == Failure(s.message) && db.data == old(db.data))
              && (s.Ok? ==> r == Ok(()) && db.data == s.value)
    {
      var current := db.GetData(UserKey(userId));
      if current.None? {
        return Failure("User not found");
      }
      UserKeyShape(userId);
      db.SetData(UserKey(userId), UserRecord(MergeUser(current.value.user, user)));
      return Ok(());
    }

    method Delete(id: string)
      requires Valid()
      modifies db
      ensures Valid()
      ensures db.data == UserDeleted(old(db.data), id)
    {
      db.DeleteData(UserKey(id));
    }

    method ListAllById(ids: seq<string>) returns (users: seq<User>)
      requires Valid()
      ensures users == UsersListed(db.data, ids)
    {
      users := [];
      for i := 0 to |ids|
        invariant users == UsersListed(db.data, ids[..i])
      {
        assert ids[..i + 1][..i] == ids[..i];
        var d := db.GetData(UserKey(ids[i]));
        if d.Some? && d.value.UserRecord? {
          users := users + [d.value.user];
        }
      }
      assert ids[..|ids|] == ids;
    }
  }
}
