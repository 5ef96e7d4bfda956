# secret-friend-server, modelled in Dafny

This project models the core of the secret-friend (Secret Santa) server. Clients open a socket and send tagged messages. The server does three things with them:

- it keeps rooms and users in a key-value store, under the keys `room:<id>` and `user:<id>`;
- it routes the seven declared message tags: `ping` gets a `pong`, and each of the six others runs one service (create a room, join, add a participant, leave, broadcast, start the draw);
- it answers through a notifier, which sends to one socket, to a room, or changes groups and presence.

The draw pairs every participant with another participant. It does this by shuffling the participant list and retrying until no one is paired with themselves, for at most 2000 attempts.

The two collaborators are plain state:

- `Providers.Store` holds a `map<string, Record>`. It stands for the key-value store behind `IDatabaseProvider`.
- `Providers.Notifier` holds the list of outbound events (`Send`, `ToRoom`, `JoinGroup`, `LeaveGroup`, `Track`, `Untrack`), in the order they were emitted.

Files and modules:

- `types.dfy` (`Types`): the records and message unions of `src/types.ts`, plus the list helpers that the services' `find` and `filter` calls use.
- `draw.dfy` (`Draw`): the shuffle and the derangement search.
  - `Shuffled` and `Generated` say what happens.
  - `Shuffle` and `GenerateValidMapping` are the loops themselves, and are proved equal to those functions.
  - `Math.random()` becomes an oracle: `oracle(attempt)(i)` is the index `j <= i` that attempt `attempt` swaps with position `i`.
- `providers.dfy` (`Providers`): the store and the notifier as classes.
- `repositories.dfy` (`Repositories`): the store effect of each repository operation, as a function on the map, and the two repository classes proved to agree with those functions.
- `transitions.dfy` (`Transitions`): each service as a function from the store to an outcome, a new store and the events it emits. Invariant lemmas sit beside these functions.
- `services.dfy` (`Services`): one class per service. Each `Handle` runs the source's steps against a repository and the notifier, and is proved to match its transition.
- `router.dfy` (`Router`): the socket `message` callback. It checks the envelope, routes on the tag to one service, and translates errors.

An outcome is one of three things:

- `Done`;
- `AppError(code)`, which the callback reports verbatim;
- `Thrown(message)`, any exception that is not an `AppError`, which the callback reports as `internal_server_error`. It is either a repository's plain `Error` or the ReferenceError of src/services/addParticipant.ts:45.

Places where the model follows the code rather than the declared types:

- `Room` has a `secretList` field. `src/types.ts` does not declare it, but `getResultByToken.ts` reads it from the stored room.
- `Outgoing` also has `left` with a client name, plus `room_found`, `result` and `users_status`. The services send these, but the types.ts union does not declare them.
- `User` is imported by the repositories but not declared in `src/types.ts`. It is modelled as `{id, name, socketId?}`.
- `RoomRepository.updateRoom` reads the raw key `roomId`, then writes `room:<roomId>`. The model keeps the two keys apart. So `updateRoom` called with a plain room id fails with "Room not found" even when the room exists (`Repositories.PlainIdUpdateFails`). Add and leave therefore report `internal_server_error` for an ordinary room id.

## Model

| member | source | states |
|---|---|---|
| Types.IncomingTag | src/types.ts:17-36 | every inbound variant has one of the seven declared tags |
| Types.OutgoingTag | src/types.ts:38-50 | the declared outbound variants carry the nine declared tags; `left` with a name still uses the `left` tag |
| Types.Find | src/services/broadcast.ts:18 | `find` by id: none exactly when no participant has the id; otherwise a member with that id, and the first one |
| Types.RemoveId | src/services/leaveRoom.ts:18 | the filtered list keeps exactly the members whose id differs, and is never longer |
| Types.RemoveIdSingle | src/services/leaveRoom.ts:18 | one participant is kept exactly when its id differs |
| Types.RemoveIdAppend | src/services/leaveRoom.ts:18 | the filter distributes over concatenation, so the survivors keep their order and multiplicity |
| Types.RemoveAbsentId | src/services/leaveRoom.ts:18 | filtering out an id no participant has leaves the list unchanged |
| Types.RemoveIdKeepsUnique | src/services/leaveRoom.ts:18-23 | filtering a list with unique ids keeps them unique |
| Draw.Swap | src/helper.ts:7 | the swap keeps the length |
| Draw.SwapExchanges | src/helper.ts:7 | the swap exchanges positions i and j, keeps every other position, and keeps the multiset |
| Draw.Shuffled | src/helper.ts:3-10 | the shuffle keeps the length |
| Draw.ShuffledIsPermutation | src/helper.ts:3-10 | the shuffle is a permutation of its input |
| Draw.SwapInPlace | src/helper.ts:7 | the destructuring swap on the array leaves exactly `Swap` of its old contents |
| Draw.Shuffle | src/helper.ts:3-10 | the in-place loop over a copied array returns the specified shuffle, with the same length and multiset; the argument is not changed |
| Draw.ShortShuffleIsIdentity | src/helper.ts:5 | inputs of length 0 or 1 come back unchanged |
| Draw.Candidate | src/helper.ts:21 | each attempt's candidate has one entry per participant |
| Draw.Pairs | src/helper.ts:29-33 | line i pairs `participants[i]` with `shuffled[i]`, n lines in all |
| Draw.Receivers | src/helper.ts:32 | the `to` column of a mapping, position by position |
| Draw.AcceptedPairsAreValid | src/helper.ts:22-33 | a permutation with no fixed id gives a valid mapping: n lines, `from` in participant order, `to.id != from.id`, `to` column a permutation |
| Draw.Generated | src/helper.ts:19-36 | the attempt loop's result, from a given attempt on: a mapping has one line per participant |
| Draw.AcceptedCandidateIsValid | src/helper.ts:21-33 | an attempt whose shuffled candidate has no fixed id gives a valid mapping |
| Draw.GeneratedIsValid | src/helper.ts:19-36 | every non-null result of the attempt loop is a valid mapping |
| Draw.SingleParticipantNeverDrawn | src/helper.ts:20-36 | with one participant every attempt is rejected and the result is null |
| Draw.EmptyDrawIsEmptyMapping | src/helper.ts:20-36 | with no participants the result is the empty mapping |
| Draw.CheckNoFixedPoint | src/helper.ts:22-28 | the `valid` flag loop with its `break` is true exactly when no position keeps its id |
| Draw.PushPairs | src/helper.ts:30-32 | the push loop builds exactly the position-by-position pairs |
| Draw.TryAttempt | src/helper.ts:21-34 | one pass of the attempt loop returns the pairs of that attempt's shuffle when it has no fixed id, and nothing otherwise |
| Draw.GeneratedStep | src/helper.ts:20-35 | an accepted attempt ends the loop with its pairs; a rejected one leaves the result to the next attempt |
| Draw.GenerateValidMapping | src/helper.ts:13-37 | the attempt loop returns the specified result, and any non-null result is a valid mapping |
| Draw.GeneratedNoneIffAllRejected | src/helper.ts:19-36 | the result is null exactly when all 2000 attempts are rejected |
| Draw.GeneratedIsFirstAccepted | src/helper.ts:20-34 | the result is the mapping of the first accepted attempt |
| Draw.DistinctOccursOnce | src/helper.ts:21 | distinct elements occur once each in the multiset |
| Draw.ReceivedExactlyOnce | src/helper.ts:21-32 | with unique ids, every participant is the `to` of exactly one line |
| Providers.Lookup | src/providers/IDatabaseProvider.ts:1-7 | `getData` is present exactly when the key is stored, and returns the stored value |
| Providers.Store.constructor | src/providers/IDatabaseProvider.ts:1-7 | the store starts with the given contents |
| Providers.Store.GetData | src/providers/IDatabaseProvider.ts:1-7 | reads the value under a key, or null |
| Providers.Store.CheckIfExists | src/providers/IDatabaseProvider.ts:1-7 | true exactly when the key is stored |
| Providers.Store.SetData | src/providers/IDatabaseProvider.ts:1-7 | writes one key and nothing else |
| Providers.Store.DeleteData | src/providers/IDatabaseProvider.ts:1-7 | removes one key and nothing else |
| Providers.Notifier.constructor | src/providers/INotifierProvider.ts:1-18 | the event log starts empty |
| Providers.Notifier.Send | src/providers/INotifierProvider.ts:1-18 | appends one send to a socket |
| Providers.Notifier.SendMessageToRoom | src/providers/INotifierProvider.ts:1-18 | appends one send to a room |
| Providers.Notifier.JoinParticipantRoom | src/providers/INotifierProvider.ts:1-18 | appends one group join |
| Providers.Notifier.LeaveParticipantRoom | src/providers/INotifierProvider.ts:1-18 | appends one group leave |
| Providers.Notifier.TrackUserRoom | src/providers/INotifierProvider.ts:1-18 | appends one presence track |
| Providers.Notifier.UntrackUserRoom | src/providers/INotifierProvider.ts:1-18 | appends one presence untrack |
| Repositories.RoomKey | src/repositories/RoomRepository.ts:8 | the room key is `room:` followed by the id |
| Repositories.UserKey | src/repositories/UserRepository.ts:8 | the user key is `user:` followed by the id |
| Repositories.KeysAreDistinct | src/repositories/RoomRepository.ts:8 | distinct ids give distinct keys, and a room key is never a user key |
| Repositories.RoomKeyShape | src/repositories/RoomRepository.ts:8 | a room key has the room prefix and not the user prefix |
| Repositories.UserKeyShape | src/repositories/UserRepository.ts:8 | a user key has the user prefix and not the room prefix |
| Repositories.MergeRoom | src/repositories/RoomRepository.ts:29-32 | `{...current, ...update}`: every field the update has wins, and an absent optional field keeps the current one |
| Repositories.MergeUser | src/repositories/UserRepository.ts:30-33 | `{...current, ...user}`: id and name come from the update, and `socketId` from the update when it has one |
| Repositories.CompleteUpdateReplaces | src/repositories/RoomRepository.ts:29-32 | an update carrying every optional field replaces the document |
| Repositories.RoomOf | src/repositories/RoomRepository.ts:16-19 | `findRoom` finds a room exactly when `room:<id>` is stored, and returns what is stored there |
| Repositories.RoomInserted | src/repositories/RoomRepository.ts:7-14 | `newRoom` fails with "Room already exists" exactly when `room:<id>` is taken; otherwise it stores the data there and keeps every other key |
| Repositories.RoomUpdated | src/repositories/RoomRepository.ts:25-33 | `updateRoom` fails with "Room not found" exactly when the raw key `roomId` is absent; otherwise `room:<roomId>` holds the merge of the raw key's document with the update, and no other key changes |
| Repositories.RoomDeleted | src/repositories/RoomRepository.ts:35-37 | after `deleteRoom` the room is not found and every other key is unchanged |
| Repositories.PlainIdUpdateFails | src/repositories/RoomRepository.ts:26-27 | in a store of prefixed keys, `updateRoom` with an unprefixed id always fails |
| Repositories.UserOf | src/repositories/UserRepository.ts:17-20 | `findById` finds a user exactly when `user:<id>` is stored |
| Repositories.UserInserted | src/repositories/UserRepository.ts:7-15 | `new` fails with "User already exists" exactly when `user:<id>` is taken; otherwise it stores the user and keeps every other key |
| Repositories.UserUpdated | src/repositories/UserRepository.ts:26-34 | `update` fails with "User not found" exactly when the prefixed key is absent; otherwise that key holds the merge, and no other key changes |
| Repositories.UserDeleted | src/repositories/UserRepository.ts:36-38 | `delete` removes only `user:<id>` |
| Repositories.UsersListed | src/repositories/UserRepository.ts:40-51 | the list is no longer than `ids`, and each user in it is stored under one of the ids |
| Repositories.UsersListedSingle | src/repositories/UserRepository.ts:43-48 | one id lists its stored user, or nothing when it is missing |
| Repositories.UsersListedAppend | src/repositories/UserRepository.ts:40-51 | the list for `a + b` is the list for `a` followed by the list for `b`: order of `ids` kept, missing ids skipped |
| Repositories.AllStoredUsersListed | src/repositories/UserRepository.ts:40-51 | when every id is stored, the list has one user per id, in the order of `ids` |
| Repositories.RoomsAndUsersAreIndependent | src/repositories/RoomRepository.ts:8-37 | room inserts and deletes never change a user lookup, and user inserts and deletes never change a room lookup |
| Repositories.RoomRepository.constructor | src/repositories/RoomRepository.ts:5 | the repository works on the given store |
| Repositories.RoomRepository.NewRoom | src/repositories/RoomRepository.ts:7-14 | on failure the store is unchanged; on success it becomes `RoomInserted`, and the data is returned unchanged |
| Repositories.RoomRepository.FindRoom | src/repositories/RoomRepository.ts:16-19 | returns `RoomOf` |
| Repositories.RoomRepository.Exists | src/repositories/RoomRepository.ts:21-23 | true exactly when `room:<id>` is stored |
| Repositories.RoomRepository.UpdateRoom | src/repositories/RoomRepository.ts:25-33 | reads the raw key, then either fails with the store unchanged or leaves the store as `RoomUpdated` |
| Repositories.RoomRepository.DeleteRoom | src/repositories/RoomRepository.ts:35-37 | leaves the store as `RoomDeleted` |
| Repositories.UserRepository.constructor | src/repositories/UserRepository.ts:5 | the repository works on the given store |
| Repositories.UserRepository.New | src/repositories/UserRepository.ts:7-15 | on failure the store is unchanged; on success it becomes `UserInserted` |
| Repositories.UserRepository.FindById | src/repositories/UserRepository.ts:17-20 | returns `UserOf` |
| Repositories.UserRepository.Exists | src/repositories/UserRepository.ts:22-24 | true exactly when `user:<id>` is stored |
| Repositories.UserRepository.Update | src/repositories/UserRepository.ts:26-34 | fails with the store unchanged, or leaves the store as `UserUpdated` |
| Repositories.UserRepository.Delete | src/repositories/UserRepository.ts:36-38 | leaves the store as `UserDeleted` |
| Repositories.UserRepository.ListAllById | src/repositories/UserRepository.ts:40-51 | the accumulator loop returns `UsersListed` and writes nothing |
| Transitions.RoomOfConsistent | src/services/joinRoom.ts:20-30 | under the invariant, a found room has the requested id and unique participant ids |
| Transitions.AppendNewKeepsUnique | src/services/addParticipant.ts:27-36 | appending a participant whose id is new keeps ids unique |
| Transitions.InitialRoom | src/services/createRoom.ts:23-28 | the new room has the given id, name and admin, no draw result, and the admin as its one participant, flagged admin, with the origin socket |
| Transitions.CreateRoom | src/services/createRoom.ts:11-43 | `room_already_exists` with nothing written and nothing emitted; otherwise `room:<roomId>` holds a room whose only participant is the admin, with `isAdmin` and the origin socket, and `adminId` is that participant's id; then, in order: group join, `room_created`, `joined` with that list, all to the origin |
| Transitions.JoinRoom | src/services/joinRoom.ts:15-49 | `room_not_found`, then `client_id_already_in_room`, with no events; otherwise the store is never written, and the events are group join, `joined` with the old list plus the new `{id, name, socketId}` at the end, and `participant_added` to the room |
| Transitions.AddParticipant | src/services/addParticipant.ts:11-46 | `room_not_found`, `only_admin_can_add`, `participant_already_exists`, in that order, with nothing written; then the raw-key write, which fails unless the raw `roomId` is stored; on success the written `room:<id>` is the merge of the raw-key document with the found room whose list is the old one plus `{id, name}` with no socket and no admin flag, exactly one `participant_added` follows, and the closing log line's undeclared `name` then throws |
| Transitions.LeaveRoom | src/services/leaveRoom.ts:11-42 | `room_not_found` with nothing written; otherwise the found room with the filtered list is merged into `room:<id>` first, every other key unchanged; `participant_not_found` follows the write, with no events; on success: group leave for the socket or `""`, `left` with name and id to the room, untrack |
| Transitions.Broadcast | src/services/broadcast.ts:11-31 | `room_not_found`, then `admin_not_in_room` when no participant has the id; otherwise exactly one `broadcast` to the room, from the first participant with that id (`find`) and with the message verbatim; no writes |
| Transitions.GetRoomById | src/services/getRoomById.ts:11-25 | `room_not_found`, then `not_authorized` unless `adminId` is the room's; otherwise one `room_found` with the stored room to the socket; no writes |
| Transitions.GetResultByToken | src/services/getResultByToken.ts:12-52 | `room_not_found`, `no_draw_result`, `invalid_token`, `user_not_found`, in that order; otherwise one `result` to the socket with the names of the first participants (`find`) with the payload's `to` and `from` ids; no writes |
| Transitions.MatchSends | src/services/startDraw.ts:35-39 | every send is a `your_match` to the socket of a line that has one, carrying that line's `to`, and every such line gets its send |
| Transitions.OneMatchPerSocket | src/services/startDraw.ts:35-39 | with distinct sockets, each line with a socket gets exactly one `your_match` |
| Transitions.NoMatchWithoutLine | src/services/startDraw.ts:35-39 | a socket that no line has gets no `your_match` |
| Transitions.FindFrom | src/services/startDraw.ts:42-43 | a found line is in the mapping and its `from` has the id |
| Transitions.FindFromIsFirst | src/services/startDraw.ts:42-43 | null exactly when no line's `from` has the id; otherwise the first such line |
| Transitions.AdminSend | src/services/startDraw.ts:42-47 | at most one send; there is one exactly when the admin's line is found and has a socket, and it is `draw_result_admin` with the whole mapping to that socket |
| Transitions.FindFromFollowsParticipants | src/services/startDraw.ts:42-43 | the line found by its `from` id is the line of the first participant with that id |
| Transitions.StartDraw | src/services/startDraw.ts:12-50 | the store is never written, and refusals emit nothing |
| Transitions.StartDrawOutcomes | src/services/startDraw.ts:12-50 | `room_not_found`, `only_admin_can_start_draw`, `need_at_least_two_participants`, `could_not_generate_mapping`, in that order; otherwise the mapping is valid, the events are the `your_match` sends, then `draw_result_admin` to the admin's socket only when the admin is a participant with one |
| Transitions.JoinAndTrack | src/services/connectNotification.ts:22-27 | nothing when no room was found; otherwise group join of the socket, then track under the user's id and name, for that room |
| Transitions.ConnectNotification | src/services/connectNotification.ts:13-42 | an unknown user is stored with the socket set; a known user is written back as the stored record with the socket overwritten; only that key changes; group join then track, under the incoming name, exactly when the room looked up under `roomId` (or `""`) exists |
| Transitions.Statuses | src/services/updateUserPresence.ts:8-20 | same length and order as the online list; the name is kept, and a missing one becomes `""` |
| Transitions.NotifyUserOnline | src/services/updateUserPresence.ts:6-16 | exactly one `users_status` to the room; its entries are the online users' statuses, in order: each user's id, and its name or `""` |
| Transitions.NotifyUserOffline | src/services/updateUserPresence.ts:18-28 | exactly one `users_status` to the room; its entries are the online users' statuses, in order: each user's id, and its name or `""` |
| Transitions.PresenceEnvelopesAgree | src/services/updateUserPresence.ts:6-28 | online and offline emit identical envelopes for the same list, whatever the user id |
| Transitions.CreateRoomKeepsConsistent | src/services/createRoom.ts:23-30 | creating a room keeps every stored room's id matching its key and its participant ids unique |
| Transitions.AddParticipantKeepsConsistent | src/services/addParticipant.ts:27-38 | adding keeps that invariant, because duplicates are refused |
| Transitions.LeaveRoomKeepsConsistent | src/services/leaveRoom.ts:18-23 | leaving keeps that invariant |
| Transitions.ConnectNotificationKeepsConsistent | src/services/connectNotification.ts:17-34 | connecting writes only a user key, so the invariant holds |
| Transitions.NewRoomHasOneAdmin | src/services/createRoom.ts:23-30 | a newly created room has exactly one participant, who is its admin |
| Services.CreateRoomService.constructor | src/services/createRoom.ts:6-9 | the service keeps the given repository and notifier |
| Services.CreateRoomService.Handle | src/services/createRoom.ts:11-43 | the outcome, store and log are those of `CreateRoom` |
| Services.JoinRoomService.constructor | src/services/joinRoom.ts:6-9 | the service keeps the given repository and notifier |
| Services.JoinRoomService.Handle | src/services/joinRoom.ts:11-49 | the outcome and log are those of `JoinRoom`; only the notifier is modified |
| Services.AddParticipantService.constructor | src/services/addParticipant.ts:6-9 | the service keeps the given repository and notifier |
| Services.AddParticipantService.Handle | src/services/addParticipant.ts:11-46 | the outcome, store and log are those of `AddParticipant` |
| Services.LeaveRoomService.constructor | src/services/leaveRoom.ts:6-9 | the service keeps the given repository and notifier |
| Services.LeaveRoomService.Handle | src/services/leaveRoom.ts:11-42 | the outcome, store and log are those of `LeaveRoom` |
| Services.BroadcastService.constructor | src/services/broadcast.ts:6-9 | the service keeps the given repository and notifier |
| Services.BroadcastService.Handle | src/services/broadcast.ts:11-31 | the outcome and log are those of `Broadcast`; only the notifier is modified |
| Services.GetRoomByIdService.constructor | src/services/getRoomById.ts:6-9 | the service keeps the given repository and notifier |
| Services.GetRoomByIdService.Handle | src/services/getRoomById.ts:11-25 | the outcome and log are those of `GetRoomById`; only the notifier is modified |
| Services.GetResultByTokenService.constructor | src/services/getResultByToken.ts:7-10 | the service keeps the given repository, notifier and token check |
| Services.GetResultByTokenService.Handle | src/services/getResultByToken.ts:12-52 | the outcome and log are those of `GetResultByToken`; only the notifier is modified |
| Services.StarDrawService.constructor | src/services/startDraw.ts:7-10 | the service keeps the given repository and notifier |
| Services.StarDrawService.Handle | src/services/startDraw.ts:12-50 | the outcome and log are those of `StartDraw`; only the notifier is modified |
| Services.StarDrawService.DrawAndAnnounce | src/services/startDraw.ts:30-47 | `could_not_generate_mapping` with nothing sent when the generator gives null; otherwise done, with the match sends and then the admin's copy |
| Services.StarDrawService.Announce | src/services/startDraw.ts:34-47 | appends the `your_match` sends, then the admin's copy |
| Services.StarDrawService.SendMatches | src/services/startDraw.ts:35-39 | the loop over the mapping appends exactly `MatchSends` |
| Services.ConnectNotificationService.constructor | src/services/connectNotification.ts:7-11 | the service keeps the given repositories and notifier |
| Services.ConnectNotificationService.Handler | src/services/connectNotification.ts:13-42 | the store and log are those of `ConnectNotification`, with both repositories on one store |
| Services.UpdateUserPresenceService.constructor | src/services/updateUserPresence.ts:4 | the service keeps the given notifier |
| Services.UpdateUserPresenceService.NotifyUserOnline | src/services/updateUserPresence.ts:6-16 | appends `NotifyUserOnline` for the online list |
| Services.UpdateUserPresenceService.NotifyUserOffline | src/services/updateUserPresence.ts:18-28 | appends `NotifyUserOffline` for the online list |
| Router.Parse | src/providers/SocketIoProvider.ts:39-178 | invalid exactly when the value is not an object or has no `type`; unknown exactly when the `type` is none of the seven tags; otherwise the message has that tag and carries the envelope's declared fields |
| Router.EnvelopeOf | src/types.ts:17-36 | the envelope of a message has its tag and carries its fields |
| Router.ParseEnvelopeOf | src/providers/SocketIoProvider.ts:39-178 | every inbound message is routed as itself |
| Router.ParseKnownTag | src/providers/SocketIoProvider.ts:43-176 | any envelope with a known tag and a message's fields is routed as that message |
| Router.RoomNameOr | src/providers/SocketIoProvider.ts:53 | a truthy `roomName` is kept; a missing or empty one becomes `Room_Name_Default` |
| Router.ErrorCode | src/providers/SocketIoProvider.ts:179-186 | an `AppError` code is kept verbatim; anything else becomes `internal_server_error` |
| Router.Handled | src/providers/SocketIoProvider.ts:48-176 | the one service call of each branch keeps the store well typed |
| Router.Dispatch | src/providers/SocketIoProvider.ts:35-186 | one message event keeps the store well typed |
| Router.DispatchOutcomes | src/providers/SocketIoProvider.ts:35-186 | `invalid_message` and `unknown_message_type` are single error replies with nothing written; `ping` gives exactly one `pong`; any other message writes what its one service writes; a completed one is followed by its continuation and nothing more, and a refusal by one error reply with the code, or with `internal_server_error` for a non-`AppError` |
| Router.RepliesTagged | src/providers/SocketIoProvider.ts:39-186 | a refused envelope gets one reply to the sender whose wire type is `error`, a ping one whose type is `pong`, and a refused service ends in a reply to the sender of type `error` |
| Router.DispatchKeepsConsistent | src/providers/SocketIoProvider.ts:35-186 | one message event keeps every stored room's id matching its key and its participant ids unique |
| Router.MissingRoomNameDefaults | src/providers/SocketIoProvider.ts:48-57 | a `create_room` without a truthy name stores a room named `Room_Name_Default` |
| Router.Continuation | src/providers/SocketIoProvider.ts:124-130 | nothing after a message other than `leave_room`; after `leave_room`, the sender leaves the group, then `left {roomId, clientId}` goes to the room |
| Router.LeaveRoomAnnounced | src/providers/SocketIoProvider.ts:119-133 | a completed `leave_room` is followed by the sender leaving the group and `left {roomId, clientId}` to the room |
| Router.ErrorCount | src/providers/SocketIoProvider.ts:193-196 | no more error envelopes than events; zero exactly when none is an error |
| Router.ErrorCountAppend | src/providers/SocketIoProvider.ts:193-196 | error counts add over concatenation |
| Router.DrawSendsNoErrors | src/services/startDraw.ts:12-50 | the draw's events hold no error envelope: only `your_match` sends and at most one `draw_result_admin` |
| Router.CreateSendsNoErrors | src/services/createRoom.ts:11-43 | creating a room emits no error envelope |
| Router.JoinSendsNoErrors | src/services/joinRoom.ts:15-49 | joining a room emits no error envelope |
| Router.AddSendsNoErrors | src/services/addParticipant.ts:11-46 | adding a participant emits no error envelope, even when it ends in the throw |
| Router.LeaveSendsNoErrors | src/services/leaveRoom.ts:11-42 | leaving a room emits no error envelope |
| Router.HandlersSendNoErrors | src/providers/SocketIoProvider.ts:48-176 | no service emits an error envelope itself |
| Router.OneErrorPerRefusal | src/providers/SocketIoProvider.ts:38-186 | every message yields exactly one error envelope when it is refused, and none otherwise |
| Router.MessageRouter.constructor | src/providers/SocketIoProvider.ts:15-23 | the router keeps the given services and notifier |
| Router.MessageRouter.MakeError | src/providers/SocketIoProvider.ts:193-196 | appends one `error` envelope to the socket |
| Router.MessageRouter.OnMessage | src/providers/SocketIoProvider.ts:35-186 | the store and log afterwards are those of `Dispatch` |
| Router.MessageRouter.ServeAndReply | src/providers/SocketIoProvider.ts:48-186 | after the one service call, the store is the service's; the log gains the service's events, then the `leave_room` continuation when the service completes, or else one error reply to the sender with the service's code or `internal_server_error` |
| Router.MessageRouter.Serve | src/providers/SocketIoProvider.ts:48-176 | the one service call returns the outcome, and leaves the store and log, that `Handled` says |

## Left out

- JSON encoding in the store: a stored value is the record itself, and `JSON.parse` cannot fail.
- `jsonwebtoken` and the `JWT_SECRET` fallback. Token verification is a parameter, `verify: string -> Option<TokenPayload>`.
- `Math.random()`: an index oracle replaces it, and the model says nothing about uniformity or the expected number of attempts.
- `async`/`await`: every handler runs atomically, so read-modify-write races between handlers are not modelled.
- `console.log` and `console.error` as output. The one log line that throws, src/services/addParticipant.ts:45, is modelled as that throw.
- Socket.io mechanics, connection objects, emitting, and the `getSocketById` lookup. The callback's own `socket.join`/`socket.leave` and emits are events in the same log as the notifier's.
- The callback code that runs after a service returns and reads its result, in the `create_room`, `join_room`, `broadcast` and `start_draw` branches (src/providers/SocketIoProvider.ts:49-176). The services return nothing, so as written each successful call of those four ends in one `internal_server_error` reply (lines 179-186). The `add_participant` branch never reaches its own post-service code, because the service throws first; the model has that throw, so its `internal_server_error` reply is modelled. `create_room` first also joins the socket to the group a second time and sends `room_created`, and only then fails on `newRoom.participants`. The other three fail at once, when they destructure or iterate `undefined`. The model takes the services' own events as the whole reaction, and models only the `leave_room` continuation, which reads no result. So `Router.OneErrorPerRefusal`'s "none otherwise" and the completed-message case of `Router.DispatchOutcomes` describe the service contracts, not those four branches as written.
- The callback does not route to four services: get room by id, get result by token, connect, and presence. They are modelled as services only.
- Envelopes whose tag is known but which lack a declared field. Each field is a value of its declared type, so an `undefined` field is not modelled.
- A `type` value that is not a string: the tag is a string or missing.
- `Object.assign` in `connectNotification.ts` mutates the caller's user object in place. The model builds the updated value instead, so aliasing of the caller's object is not modelled.
- `Repositories.MergeRoom` when the raw key holds a user document. The merge gets the user's name but drops its `socketId`, because `Room` has no such field.
- `getOnlineUsersInRoom` is a query into the notifier's presence table. It is a parameter (`online`) of the presence functions.
- The private `shuffle` and `generateValidMapping` of `src/services/startDraw.ts:52-85` are line-for-line copies of `src/helper.ts`. `Draw` is the single definition of both, so their guarantees carry over.
- The service class names carry a `Service` suffix where `Transitions` already has a function of the source's class name: `GetRoomByIdService`, `GetResultByTokenService`, `ConnectNotificationService`.
- `src/providers/RedisProvider.ts` is not part of this model. The store is the map behind `IDatabaseProvider`.
- `src/server.ts` is not part of this model. It does process bootstrap, and its constructor call does not match the provider's signature.
- `src/services/handleDisconnect.ts` is not part of this model. It is a single untrack delegate with no logic of its own.
- `Transitions.StartDraw`: states only the frame and the quiet refusals; its full contract is `Transitions.StartDrawOutcomes`.
- `Router.Dispatch`: states only well-typedness. `Router.DispatchOutcomes` states its store and events for every envelope, with the post-service gap of the four branches named above.
