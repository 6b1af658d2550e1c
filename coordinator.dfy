/** The signaling server's state and the effect of each socket event handler on
    it, as pure step functions. The transport (socket.io) is abstracted as a
    map from connected session to the set of room tags it holds (which
    includes the session's own id) and an outbox of addressed emits. */
module Coordinator {
  import opened Rooms

  /** The three handshake messages relayed verbatim between peers. */
  datatype RelayKind = Offer | Answer | IceCandidate

  /** The `data` object a peer sends with offer/answer/ice-candidate: the room
      it names and everything else (sdp or candidate), which is opaque here. */
  datatype Signal = Signal(room: RoomKey, body: string)

  /** The events the server emits, with their payloads. */
  datatype Event =
    | Joined(isFirst: bool, userCount: nat)
    | UserJoined(userId: SessionId)
    | RoomFull
    | UserLeft(userId: SessionId)
    | Relayed(kind: RelayKind, data: Signal)

  /** One emit: the sessions it is delivered to and what they receive. */
  datatype Emit = Emit(targets: set<SessionId>, event: Event)

  /** The `rooms` Map, the transport's room tags per session, and every emit
      so far in order. */
  datatype State = State(
    rooms: map<RoomKey, Room>,
    tags: map<SessionId, set<RoomKey>>,
    outbox: seq<Emit>)

  /** Every room in the table is well formed; in particular no empty room is
      kept. */
  predicate Consistent(s: State) {
    forall k :: k in s.rooms ==> WellFormed(s.rooms[k])
  }

  /** The receivers of `socket.to(room).emit(...)`: every connected session
      whose tags hold `room`, except the sender. */
  function Others(tags: map<SessionId, set<RoomKey>>, room: RoomKey, sid: SessionId): (r: set<SessionId>)
    ensures sid !in r
    ensures r <= tags.Keys
  {
    set t | t in tags && room in tags[t] && t != sid
  }

  /** The transport tags of `sid` once the join handler has detached it from
      every tag but its own and attached it to `room`. */
  function JoinTags(tags: map<SessionId, set<RoomKey>>, sid: SessionId, room: RoomKey): (t: map<SessionId, set<RoomKey>>)
    requires sid in tags
    ensures t.Keys == tags.Keys
    ensures room in t[sid]
    ensures sid in tags[sid] ==> sid in t[sid]
    ensures t[sid] <= tags[sid] + {room}
    ensures forall k :: k != sid && k != room ==> k !in t[sid]
    ensures forall u :: u in tags && u != sid ==> t[u] == tags[u]
  {
    tags[sid := tags[sid] * {sid} + {room}]
  }

  /** The `join` handler: transport tags first, then the membership push,
      then the replies. */
  function AfterJoin(s: State, sid: SessionId, room: RoomKey): (t: State)
    requires sid in s.tags
    ensures t.tags.Keys == s.tags.Keys
    ensures forall u :: u in s.tags && u != sid ==> t.tags[u] == s.tags[u]
    ensures t.rooms.Keys == s.rooms.Keys + {room}
    ensures sid in t.rooms[room].users ==> t.tags == JoinTags(s.tags, sid, room)
    ensures forall k :: k in s.rooms && k != room ==> t.rooms[k] == s.rooms[k]
    ensures s.outbox < t.outbox && |t.outbox| <= |s.outbox| + 2
    ensures t.outbox[|s.outbox|].targets == {sid} && t.outbox[|s.outbox|].event.Joined?
  {
    var info := Admit(if room in s.rooms then s.rooms[room] else EmptyRoom, sid);
    Announce(State(s.rooms[room := info], JoinTags(s.tags, sid, room), s.outbox), sid, room)
  }

  /** The end of the `join` handler, once the session is listed: reply to
      the joiner, then tell the peer of a second user or turn a third away. */
  function Announce(s: State, sid: SessionId, room: RoomKey): (t: State)
    requires sid in s.tags && room in s.rooms
    ensures t.tags.Keys == s.tags.Keys
    ensures forall u :: u in s.tags && u != sid ==> t.tags[u] == s.tags[u]
    ensures t.rooms.Keys == s.rooms.Keys
    ensures forall k :: k in s.rooms && k != room ==> t.rooms[k] == s.rooms[k]
    ensures |s.rooms[room].users| <= 2 ==> t.rooms == s.rooms && t.tags == s.tags
    ensures s.outbox < t.outbox && |t.outbox| <= |s.outbox| + 2
    ensures t.outbox[|s.outbox|].targets == {sid}
    ensures t.outbox[|s.outbox|].event.Joined? && t.outbox[|s.outbox|].event.userCount == |s.rooms[room].users|
  {
    var info := s.rooms[room];
    var reply := Emit({sid}, Joined(info.initiator == Some(sid), |info.users|));
    if |info.users| == 2 then
      s.(outbox := s.outbox + [reply, Emit(Others(s.tags, room, sid), UserJoined(sid))])
    else if |info.users| > 2 then
      State(s.rooms[room := info.(users := Without(info.users, sid))],
            s.tags[sid := s.tags[sid] - {room}],
            s.outbox + [reply, Emit({sid}, RoomFull)])
    else
      s.(outbox := s.outbox + [reply])
  }

  /** The `offer`, `answer` and `ice-candidate` handlers: forward the data
      object to the room's other transport members. */
  function AfterRelay(s: State, sid: SessionId, kind: RelayKind, data: Signal): (t: State)
    ensures t.rooms == s.rooms && t.tags == s.tags
    ensures s.outbox < t.outbox && |t.outbox| == |s.outbox| + 1
    ensures sid !in t.outbox[|s.outbox|].targets
    ensures t.outbox[|s.outbox|].event.Relayed? && t.outbox[|s.outbox|].event.data == data
  {
    s.(outbox := s.outbox + [Emit(Others(s.tags, data.room, sid), Relayed(kind, data))])
  }

  /** `handleUserLeave`, which both `leave` and `disconnect` run. */
  function AfterLeave(s: State, sid: SessionId, room: RoomKey): (t: State)
    requires sid in s.tags
    ensures t.tags == s.tags[sid := s.tags[sid] - {room}]
    ensures t.rooms.Keys <= s.rooms.Keys
    ensures s.outbox <= t.outbox && |t.outbox| <= |s.outbox| + 1
    ensures forall i :: |s.outbox| <= i < |t.outbox| ==>
      t.outbox[i].event == UserLeft(sid) && sid !in t.outbox[i].targets
  {
    var tags := s.tags[sid := s.tags[sid] - {room}];
    if room !in s.rooms then s.(tags := tags)
    else
      var info := s.rooms[room];
      var users := Without(info.users, sid);
      var outbox := s.outbox + [Emit(Others(s.tags, room, sid), UserLeft(sid))];
      if |users| == 0 then State(s.rooms - {room}, tags, outbox)
      else
        var initiator := if info.initiator == Some(sid) then Some(users[0]) else info.initiator;
        State(s.rooms[room := Room(users, initiator)], tags, outbox)
  }

  /** The `forEach` of the disconnect handler: `handleUserLeave` for every tag
      in `seen`, in order, skipping the session's own id. */
  function LeaveEach(s: State, sid: SessionId, seen: seq<RoomKey>): (t: State)
    requires sid in s.tags
    ensures t.tags.Keys == s.tags.Keys
    ensures forall u :: u in s.tags && u != sid ==> t.tags[u] == s.tags[u]
    ensures t.rooms.Keys <= s.rooms.Keys
    ensures s.outbox <= t.outbox && |t.outbox| <= |s.outbox| + |seen|
    ensures forall i :: |s.outbox| <= i < |t.outbox| ==>
      t.outbox[i].event == UserLeft(sid) && sid !in t.outbox[i].targets
    decreases |seen|
  {
    if seen == [] then s
    else LeaveEach(if seen[0] != sid then AfterLeave(s, sid, seen[0]) else s, sid, seen[1..])
  }

  /** The `disconnect` handler given the tags the transport still reports for
      the session (`seen`, in the Set's insertion order); afterwards the
      transport forgets the session. */
  function AfterDisconnect(s: State, sid: SessionId, seen: seq<RoomKey>): (t: State)
    requires sid in s.tags
    ensures sid !in t.tags && t.tags.Keys == s.tags.Keys - {sid}
    ensures forall u :: u in t.tags ==> t.tags[u] == s.tags[u]
    ensures t.rooms.Keys <= s.rooms.Keys
    ensures s.outbox <= t.outbox && |t.outbox| <= |s.outbox| + |seen|
    ensures forall i :: |s.outbox| <= i < |t.outbox| ==>
      t.outbox[i].event == UserLeft(sid) && sid !in t.outbox[i].targets
  {
    var t := LeaveEach(s, sid, seen);
    t.(tags := t.tags - {sid})
  }
}
