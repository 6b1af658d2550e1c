/** The socket.io connection handler of the signaling server: the shared
    `rooms` Map and one method per socket event, each mutating the shared
    state step by step as the handler does and proved to reach the state the
    matching step function of module Coordinator describes. */
module SignalingServer {
  import opened Rooms
  import opened Coordinator
  import Properties

  class Server {
    /** The `rooms` Map. */
    var rooms: map<RoomKey, Room>
    /** The transport's view: the room tags each connected session holds. */
    var tags: map<SessionId, set<RoomKey>>
    /** Every emit the handlers have made, in order. */
    var outbox: seq<Emit>

    function Snapshot(): (s: State)
      reads this
    {
      State(rooms, tags, outbox)
    }

    ghost predicate Valid()
      reads this
    {
      Consistent(Snapshot())
    }

    /** Server start: an empty room table and no connection. */
    constructor ()
      ensures Valid()
      ensures rooms == map[] && tags == map[] && outbox == []
    {
      rooms, tags, outbox := map[], map[], [];
    }

    /** A new connection: the transport puts the session in the room named
        by its own id and registers the handlers below for it. */
    method Connect(sid: SessionId)
      requires Valid() && sid !in tags
      modifies this
      ensures Valid()
      ensures rooms == old(rooms) && outbox == old(outbox)
      ensures tags == old(tags)[sid := {sid}]
    {
      tags := tags[sid := {sid}];
    }

    /** The `forEach` at the start of `join`: `socket.leave` for every room
        tag the session holds except its own id. The room table is not
        consulted. */
    method LeaveOtherTags(sid: SessionId)
      requires sid in tags
      modifies this
      ensures rooms == old(rooms) && outbox == old(outbox)
      ensures tags == old(tags)[sid := old(tags)[sid] * {sid}]
    {
      var current := tags[sid];
      var pending := current;
      assert pending + current * {sid} == current;
      assert tags == old(tags)[sid := current];
      while pending != {}
        invariant pending <= current
        invariant rooms == old(rooms) && outbox == old(outbox)
        invariant tags == old(tags)[sid := pending + current * {sid}]
        decreases pending
      {
        var existing :| existing in pending;
        if existing != sid {
          tags := tags[sid := tags[sid] - {existing}];
        }
        assert (pending - {existing}) + current * {sid} == tags[sid];
        pending := pending - {existing};
      }
      assert {} + current * {sid} == current * {sid};
    }

    /** Lines 35-52 of `join`: create the entry for an unseen key, append the
        session unless it is listed, and make a sole member the initiator. */
    method AddUser(sid: SessionId, room: RoomKey) returns (info: Room)
      modifies this
      ensures info == Admit(if room in old(rooms) then old(rooms)[room] else EmptyRoom, sid)
      ensures rooms == old(rooms)[room := info]
      ensures tags == old(tags) && outbox == old(outbox)
    {
      if room !in rooms {
        rooms := rooms[room := EmptyRoom];
      }
      info := rooms[room];
      if sid !in info.users {
        info := info.(users := info.users + [sid]);
        if |info.users| == 1 {
          info := info.(initiator := Some(sid));
        }
        rooms := rooms[room := info];
      }
    }

    /** The `join` handler. */
    method Join(sid: SessionId, room: RoomKey)
      requires Valid() && sid in tags
      modifies this
      ensures Valid()
      ensures Snapshot() == AfterJoin(old(Snapshot()), sid, room)
    {
      ghost var before := Snapshot();
      LeaveOtherTags(sid);
      tags := tags[sid := tags[sid] + {room}];
      assert tags == JoinTags(before.tags, sid, room);
      var info := AddUser(sid, room);
      AnnounceJoin(sid, room, info);
      Properties.JoinPreservesConsistency(before, sid, room);
    }

    /** Lines 54-76 of `join`: the reply to the joiner, then `user-joined` to
        the peer of a second user, or `room-full` and removal for a third. */
    method AnnounceJoin(sid: SessionId, room: RoomKey, info: Room)
      requires sid in tags && room in rooms && rooms[room] == info
      modifies this
      ensures Snapshot() == Announce(old(Snapshot()), sid, room)
    {
      ghost var after := Announce(Snapshot(), sid, room);
      var isFirst := info.initiator == Some(sid);
      outbox := outbox + [Emit({sid}, Joined(isFirst, |info.users|))];
      if |info.users| == 2 {
        outbox := outbox + [Emit(Others(tags, room, sid), UserJoined(sid))];
        assert outbox == after.outbox;
      } else if |info.users| > 2 {
        outbox := outbox + [Emit({sid}, RoomFull)];
        tags := tags[sid := tags[sid] - {room}];
        rooms := rooms[room := info.(users := Without(info.users, sid))];
      } else {
        assert outbox == after.outbox;
      }
    }

    /** The `offer`, `answer` and `ice-candidate` handlers, which differ only
        in the event name they forward under. */
    method Relay(sid: SessionId, kind: RelayKind, data: Signal)
      requires Valid()
      modifies this
      ensures Valid()
      ensures Snapshot() == AfterRelay(old(Snapshot()), sid, kind, data)
    {
      outbox := outbox + [Emit(Others(tags, data.room, sid), Relayed(kind, data))];
    }

    /** `handleUserLeave`. */
    method HandleUserLeave(sid: SessionId, room: RoomKey)
      requires Valid() && sid in tags
      modifies this
      ensures Valid()
      ensures Snapshot() == AfterLeave(old(Snapshot()), sid, room)
    {
      ghost var before := Snapshot();
      ghost var after := AfterLeave(before, sid, room);
      if room in rooms {
        var info := rooms[room];
        info := info.(users := Without(info.users, sid));
        rooms := rooms[room := info];
        outbox := outbox + [Emit(Others(tags, room, sid), UserLeft(sid))];
        if |info.users| == 0 {
          rooms := rooms - {room};
          assert rooms == after.rooms;
        } else if info.initiator == Some(sid) && |info.users| > 0 {
          info := info.(initiator := Some(info.users[0]));
          rooms := rooms[room := info];
          assert rooms == after.rooms;
        } else {
          assert rooms == after.rooms;
        }
      }
      tags := tags[sid := tags[sid] - {room}];
      assert rooms == after.rooms && tags == after.tags && outbox == after.outbox;
      Properties.LeavePreservesConsistency(before, sid, room);
    }

    /** The `leave` handler. */
    method Leave(sid: SessionId, room: RoomKey)
      requires Valid() && sid in tags
      modifies this
      ensures Valid()
      ensures Snapshot() == AfterLeave(old(Snapshot()), sid, room)
    {
      HandleUserLeave(sid, room);
    }

    /** The `disconnect` handler, given the room tags the transport reports
        for the session when it fires (`seen`, in insertion order). Once it
        returns, the transport forgets the session. */
    method Disconnect(sid: SessionId, seen: seq<RoomKey>)
      requires Valid() && sid in tags
      modifies this
      ensures Valid()
      ensures Snapshot() == AfterDisconnect(old(Snapshot()), sid, seen)
    {
      var i := 0;
      while i < |seen|
        invariant i <= |seen|
        invariant Valid() && sid in tags
        invariant LeaveEach(Snapshot(), sid, seen[i..]) == LeaveEach(old(Snapshot()), sid, seen)
      {
        assert seen[i..][1..] == seen[i + 1..];
        if seen[i] != sid {
          HandleUserLeave(sid, seen[i]);
        }
        i := i + 1;
      }
      tags := tags - {sid};
    }
  }
}
