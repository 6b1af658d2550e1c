# Signaling relay room coordinator

A model of the socket.io signaling server in `index.js`. Two peers meet in a
room named by a shared token and exchange WebRTC handshake messages (offer,
answer, ICE candidates) through the server. The server keeps a table from room
key to `{users, initiator}`. Each connection registers six socket handlers:
`join`, the three relays `offer`/`answer`/`ice-candidate`, `leave` and
`disconnect`. `join`, `leave` and `disconnect` update the table and emit
events. The three relays never touch the table; they only forward the data
they receive. Both `leave` and `disconnect` run `handleUserLeave`.

The project has five modules:

- `Rooms` (`rooms.dfy`): a table entry `Room(users, initiator)` and the two
  list operations on `users`. `Admit` is the `includes`/`push`/first-user rule
  of `join`. `Without` is `users.filter(id => id !== x)`. `WellFormed` states
  the per-room invariant: one or two distinct users, and the initiator is one
  of them.
- `Coordinator` (`coordinator.dfy`): the whole server state `State(rooms,
  tags, outbox)` and one pure step function per handler. The transport is
  abstract. `tags` maps each connected session to the room tags socket.io
  holds for it, its own id included. `outbox` records every emit as a set of
  receivers and an event. `Others(tags, room, sid)` is the receiver set of
  `socket.to(room).emit(...)`.
- `Properties` (`properties.dfy`): lemmas about the step functions. They
  cover join, leave, relay and disconnect, and show that every handler keeps
  every room well formed.
- `Scenarios` (`scenarios.dfy`): a concrete run written out state by state.
  A and B pair up, C is turned away, A disconnects, and B leaves.
- `SignalingServer` (`server.dfy`): class `Server`. Its fields are the
  `rooms` Map, the transport tags and the outbox. Each handler is a method
  that updates the fields step by step, as the JavaScript does. Each method
  is proved to reach the state its step function gives and to keep the
  invariant. The two `forEach` loops over `socket.rooms` are `while` loops.

The model follows the handlers as written. In five places they behave
differently from what a two-party relay might be expected to do:

- `join` detaches the session from its earlier rooms only at the transport
  level. The earlier room's `users` still lists it (`JoinLeavesOtherRooms`).
  Nothing in the code keeps a session in at most one room's `users`.
- `disconnect` reconciles only the tags the transport still reports for the
  session, not the rooms whose `users` list it (`DisconnectKeepsUnseenRooms`).
  If the transport has already cleared the session's tags when the event
  fires, no room entry is cleaned up.
- The relays route by transport tag alone. A message for a key that is not in
  the table still reaches any session holding that tag.
- `leave` on an existing room emits `user-left` even when the leaver is not
  in `users` (`LeaveByNonMember`).
- The join reply's field is `isFirst`, which is true when the joiner is the
  room's initiator. A third joiner is first told `userCount: 3`, then
  `room-full`, and is then filtered out again.

## Model

| member | source | states |
|---|---|---|
| Rooms.Without | index.js:114 | The filter keeps exactly the users other than the removed id. The list shrinks when the id was present. A duplicate-free list stays duplicate-free. |
| Rooms.WithoutAbsent | index.js:114 | Filtering out an id that is not listed leaves the list unchanged. |
| Rooms.WithoutAppended | index.js:74 | Pushing a new id and filtering it out again gives back the original list in its order. |
| Rooms.WithoutAt | index.js:114 | In a duplicate-free list, the filter removes exactly the position that holds the id and keeps the rest in order. |
| Rooms.Admit | index.js:44-52 | The joiner ends up listed. An already-listed joiner changes nothing. Otherwise it is appended once, so the list stays duplicate-free. The joiner becomes initiator exactly when the room was empty, and the initiator is kept otherwise. |
| Coordinator.Others | index.js:68 | `socket.to(room)` never delivers to the sender, and only reaches connected sessions. |
| Coordinator.JoinTags | index.js:24-32 | After the join's transport steps the session holds the new room's tag. It keeps its own-id tag if it held it, and holds no other tag. Every other session's tags are unchanged. |
| Coordinator.AfterJoin | index.js:21-77 | A join never adds or drops a connected session, and changes no other session's tags. The joined key is in the table afterwards, and no other entry changes. Whenever the joiner ends up listed in the room, its tags are exactly its own-id tag, if it held it, plus the room's tag, so `socket.to(room)` from a peer reaches it. The join emits one or two events after the earlier ones. The first goes to the joiner alone and is `joined`. |
| Coordinator.Announce | index.js:54-76 | The replies keep the table's keys and every other room's entry. With at most two users listed they change neither the table nor the tags. They add one or two emits. The first is `joined` to the joiner alone, with `userCount` equal to the number of users listed. |
| Coordinator.AfterRelay | index.js:79-92 | A relay changes neither the table nor the tags. It appends exactly one emit, which forwards the same data object and never goes to the sender. |
| Coordinator.AfterLeave | index.js:110-133 | `handleUserLeave` always drops the leaver's tag for the room, whether or not the table changed, and leaves every other session's tags alone. So a relay to that room no longer reaches the leaver. It never creates a room. It keeps the earlier emits and adds at most one. Any emit it adds is `user-left` naming the leaver and does not go to the leaver. |
| Coordinator.LeaveEach | index.js:103-107 | The disconnect loop never creates a room, never adds or drops a connected session, and changes no other session's tags. It keeps the earlier emits and adds at most one per reported tag. Every emit it adds is `user-left` naming the leaver and does not go to the leaver. |
| Coordinator.AfterDisconnect | index.js:99-108 | After a disconnect the transport no longer holds the session. Every other session keeps its tags, and no room is created. Every emit added is `user-left` naming the departed session, at most one per reported tag, and none goes to that session. |
| Properties.JoinFreshRoom | index.js:35-64 | Joining an unseen key creates the room as `[sid]` with `sid` as initiator. The only emit is `joined {isFirst: true, userCount: 1}` to the joiner. |
| Properties.JoinNeverDuplicates | index.js:45-46 | A member that joins its room again leaves the room table unchanged. |
| Properties.JoinRejectsThird | index.js:67-76 | A third distinct joiner leaves the table unchanged, so the room keeps its two users in order and its initiator. The joiner receives `joined {isFirst: false, userCount: 3}` and then `room-full`. Its room tag is dropped again. |
| Properties.JoinSecondUser | index.js:42-68 | A second distinct joiner is appended after the first user, and the initiator is kept. The joiner receives `joined {isFirst: false, userCount: 2}`. Then `user-joined` naming it goes to the other sessions on the room's tag. |
| Properties.JoinReply | index.js:54-64 | The first emit of every join is `joined` to the joiner alone. `isFirst` says whether the joiner is the initiator once listed, and `userCount` is the number of users listed at that point. In a consistent table the joiner is first exactly when the key was new or it already was the initiator. |
| Properties.JoinNotifiesPeerIff | index.js:67-68 | `user-joined` naming the joiner is emitted if and only if the room ends with two users and the joiner is one of them. It goes to the other sessions on the room's tag. |
| Properties.JoinLeavesOtherRooms | index.js:24-32 | Join changes no table entry but the joined key, so an earlier room still lists the session. The session holds no other room tag except its own id. |
| Properties.JoinPreservesConsistency | index.js:44-76 | After any join every room has one or two distinct users and an initiator among them. |
| Properties.LeaveUnknownRoom | index.js:110-133 | Leaving a key that is not in the table changes no room and emits nothing. Only the session's tag for it goes. |
| Properties.LeaveRemovesOnlyLeaver | index.js:113-122 | A member's leave removes exactly that member and keeps the others in order. The room is deleted exactly when nobody remains. `user-left` goes to the others on the room's tag. Other rooms are untouched. |
| Properties.LeaveHandsOffInitiator | index.js:124-128 | When the initiator leaves and users remain, the first remaining user becomes initiator. Otherwise the initiator is unchanged. |
| Properties.LeavePairedRoom | index.js:113-128 | Whichever member of a paired room leaves, the one who stays is the sole user and the initiator. |
| Properties.LeaveByNonMember | index.js:113-117 | A leave by a non-member on an existing room still emits `user-left` to the room's other tag holders. It changes no membership. |
| Properties.LeavePreservesConsistency | index.js:110-133 | After any leave every room is still well formed, and no empty room remains. |
| Properties.RelayToOthersOnly | index.js:79-92 | A relayed offer, answer or candidate is emitted unmodified to exactly the sessions on the named room's tag other than the sender. The table and the tags do not change. |
| Properties.LeaveEachPreservesConsistency | index.js:103-107 | Running `handleUserLeave` for each reported tag keeps every room well formed. |
| Properties.DisconnectPreservesConsistency | index.js:99-108 | After a disconnect every room is still well formed. |
| Properties.LeaveEachKeepsUnseenRooms | index.js:103-107 | A room whose key is not among the reported tags keeps its entry unchanged through the disconnect loop. |
| Properties.DisconnectKeepsUnseenRooms | index.js:99-108 | Disconnect leaves unreported rooms' entries unchanged, even ones listing the session. The transport forgets the session. |
| Properties.LeaveEachRemovesSession | index.js:103-107 | After the disconnect loop, every reported room other than the session's own id is either deleted or no longer lists the session. |
| Properties.LeaveEachReportsSeenRooms | index.js:103-107 | Every reported room other than the session's own id that is in the table gets a `user-left` emit naming the session. It goes to the other sessions on that room's tag. |
| Properties.LeaveEachKeepsCleared | index.js:113-128 | A reported room that does not list the session, is not empty and has another initiator comes through the disconnect loop unchanged, even if its key is reported more than once. |
| Properties.LeaveEachKeepsRemaining | index.js:103-128 | Take a reported room other than the session's own id that is in the table. The disconnect loop deletes it exactly when the session was its last user. Otherwise it keeps the other users in order, and the first of them becomes initiator if the session was the initiator. |
| Properties.DisconnectKeepsRemaining | index.js:99-128 | After a disconnect, a reported room other than the session's own id is gone exactly when the session was its last user. Any other reported room keeps its remaining users, with the initiator handed to the first of them if the session held it. |
| Properties.DisconnectRemovesSession | index.js:99-108 | After a disconnect no reported room other than the session's own id still lists the session. Each such reported room that was in the table sent `user-left` to its other tag holders. The transport forgets the session. |
| Scenarios.FirstJoinerInitiates | index.js:35-64 | Concrete run: A joins "r1", becomes sole user and initiator, and receives `joined {isFirst: true, userCount: 1}`. |
| Scenarios.SecondJoinerNotifiesFirst | index.js:42-69 | Concrete run: B joins, receives `joined {isFirst: false, userCount: 2}`, and A receives `user-joined` naming B. |
| Scenarios.ThirdJoinerTurnedAway | index.js:64-75 | Concrete run: C receives `joined` with count 3 and then `room-full`. "r1" stays `[A, B]` with initiator A. |
| Scenarios.ThirdJoinerListed | index.js:24-52 | Concrete run: C's join detaches nothing, tags C with "r1" and pushes C as the third user of "r1". |
| Scenarios.ThirdJoinerRejected | index.js:63-75 | Concrete run: with C listed third, the replies are `joined` with count 3 and then `room-full`, C's "r1" tag goes, and C is filtered out again. |
| Scenarios.InitiatorDisconnectHandsOff | index.js:99-108 | Concrete run: A disconnects with tags {A, r1}. B receives `user-left` naming A, and "r1" becomes `[B]` with initiator B. |
| Scenarios.InitiatorDisconnectLoop | index.js:103-107 | Concrete run: A's disconnect loop skips A's own tag and runs `handleUserLeave` for "r1" only. |
| Scenarios.InitiatorLeavesPairedRoom | index.js:110-133 | Concrete run: the one `handleUserLeave` of A's disconnect, state for state. |
| Scenarios.LastLeaverDeletesRoom | index.js:119-122 | Concrete run: B leaves and "r1" is deleted from the table. |
| SignalingServer.Server.constructor | index.js:16 | The server starts with an empty room table, no connection and no emit, which satisfies the invariant. |
| SignalingServer.Server.Connect | index.js:18-19 | A new connection holds only its own id's tag. Nothing else changes. |
| SignalingServer.Server.LeaveOtherTags | index.js:25-29 | The loop leaves every tag of the session except its own id. The table and the outbox are untouched. |
| SignalingServer.Server.AddUser | index.js:35-52 | The entry for the key becomes `Admit` of the old entry, or of an empty room for an unseen key. |
| SignalingServer.Server.AnnounceJoin | index.js:54-76 | The reply and the `user-joined` or `room-full` branch produce exactly the state `Announce` describes. |
| SignalingServer.Server.Join | index.js:21-77 | The handler reaches `AfterJoin` of the old state and keeps every room well formed. |
| SignalingServer.Server.Relay | index.js:79-92 | The handler reaches `AfterRelay` of the old state and keeps the invariant. |
| SignalingServer.Server.HandleUserLeave | index.js:110-133 | The handler reaches `AfterLeave` of the old state and keeps the invariant. |
| SignalingServer.Server.Leave | index.js:94-97 | The handler reaches `AfterLeave` of the old state and keeps the invariant. |
| SignalingServer.Server.Disconnect | index.js:99-108 | The loop over the reported tags plus the transport's removal of the session reach `AfterDisconnect` of the old state. So no reported room other than the session's own id lists the session any more (`DisconnectRemovesSession`). A reported room survives exactly when other users remain, with the initiator handed on (`DisconnectKeepsRemaining`). The invariant is kept. |

## Left out

- Express, HTTP server, socket.io construction, CORS options and the `PORT` listen code (index.js:1-13, 136-139): process setup with no room logic.
- All `console.log` calls: logging only.
- socket.io itself: the transport is the `tags` map plus the outbox. Which tags `socket.rooms` still holds when `disconnect` fires depends on the library version, so `Disconnect` takes that list (`seen`) as a parameter. `seen` is a sequence in the Set's insertion order, which is the order `forEach` visits.
- The transport dropping a closed connection is modelled as removing the session from `tags` at the end of `Disconnect`. That removal is socket.io's doing, not the handler's.
- Delivery: the outbox records who each emit is addressed to, not whether or when it arrives.
- Contents of the `sdp` and `candidate` payloads: opaque, represented by `Signal.body` and forwarded unchanged.
- Payloads that are not strings, and relay data with no `room` field: JavaScript would accept them, but the model types room keys as strings and every `Signal` as carrying one.
- Concurrency: Node runs one handler at a time, so each handler is one atomic method.
- Aliasing of `roomInfo`: the JavaScript mutates the object held in the Map. The model reads the entry as a value and writes it back. No other reference to it outlives a handler, so the two behave the same.
- Coordinator.Others: excludes only the sender. socket.io's `socket.to` also skips every session that holds a tag equal to the sender's id. The two differ only when some session has joined a room whose key is another session's id.
- Server.Relay: the three relay handlers are one method with a `RelayKind` parameter, because they differ only in the event name they forward.
