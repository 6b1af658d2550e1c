/** What the handlers promise about the room table and the emits, proved of
    the step functions of module Coordinator. */
module Properties {
  import opened Rooms
  import opened Coordinator

  // ---------------------------------------------------------------- join

  /** Joining an unseen key creates the room with the joiner as its sole
      member and initiator, and tells the joiner it is first and alone. */
  lemma JoinFreshRoom(s: State, sid: SessionId, room: RoomKey)
    requires sid in s.tags && room !in s.rooms
    ensures var t := AfterJoin(s, sid, room);
      && t.rooms == s.rooms[room := Room([sid], Some(sid))]
      && t.outbox == s.outbox + [Emit({sid}, Joined(true, 1))]
  {
    assert Admit(EmptyRoom, sid) == Room([sid], Some(sid));
  }

  /** A member that joins its own room again is not listed twice: the room
      table does not change. */
  lemma JoinNeverDuplicates(s: State, sid: SessionId, room: RoomKey)
    requires Consistent(s) && sid in s.tags && room in s.rooms && sid in s.rooms[room].users
    ensures AfterJoin(s, sid, room).rooms == s.rooms
  {
  }

  /** A third distinct joiner is turned away: the room keeps its two users in
      the same order and its initiator, the joiner first hears it is the third
      non-initiator and then `room-full`, and its transport tag for the room
      is dropped again. */
  lemma JoinRejectsThird(s: State, sid: SessionId, room: RoomKey)
    requires Consistent(s) && sid in s.tags
    requires room in s.rooms && |s.rooms[room].users| == 2 && sid !in s.rooms[room].users
    ensures var t := AfterJoin(s, sid, room);
      && t.rooms == s.rooms
      && t.outbox == s.outbox + [Emit({sid}, Joined(false, 3)), Emit({sid}, RoomFull)]
      && t.tags == s.tags[sid := s.tags[sid] * {sid} - {room}]
  {
    var info := s.rooms[room];
    WithoutAppended(info.users, sid);
    assert Admit(info, sid).users == info.users + [sid];
    assert info.initiator != Some(sid);
    assert s.rooms[room := info] == s.rooms;
    assert (s.tags[sid] * {sid} + {room}) - {room} == s.tags[sid] * {sid} - {room};
  }

  /** A second distinct joiner is appended after the initiator, is told it is
      not first and that the room holds two users, and then every other
      session on the room's tag hears `user-joined` naming it. */
  lemma JoinSecondUser(s: State, sid: SessionId, room: RoomKey)
    requires Consistent(s) && sid in s.tags
    requires room in s.rooms && |s.rooms[room].users| == 1 && sid !in s.rooms[room].users
    ensures var t := AfterJoin(s, sid, room);
      var info := s.rooms[room];
      && t.rooms == s.rooms[room := Room(info.users + [sid], info.initiator)]
      && t.outbox == s.outbox + [Emit({sid}, Joined(false, 2)),
                                 Emit(Others(JoinTags(s.tags, sid, room), room, sid), UserJoined(sid))]
  {
  }

  /** The first emit of every join is the reply to the joiner alone: `isFirst`
      says whether the joiner is the initiator once it is listed, and
      `userCount` counts the users listed at that point, the joiner included.
      In a consistent table the joiner is first exactly when the key was
      unseen or it already was the room's initiator. */
  lemma JoinReply(s: State, sid: SessionId, room: RoomKey)
    requires sid in s.tags
    ensures var a := Admit(if room in s.rooms then s.rooms[room] else EmptyRoom, sid);
      var t := AfterJoin(s, sid, room);
      && t.outbox[|s.outbox|] == Emit({sid}, Joined(a.initiator == Some(sid), |a.users|))
      && (Consistent(s) ==>
            (a.initiator == Some(sid) <==> room !in s.rooms || s.rooms[room].initiator == Some(sid)))
  {
  }

  /** `user-joined` naming the joiner goes to the room's other transport
      members exactly when the join leaves the room with two users, the joiner
      being one of them; this includes a member re-joining a full room. */
  lemma JoinNotifiesPeerIff(s: State, sid: SessionId, room: RoomKey)
    requires sid in s.tags
    ensures var t := AfterJoin(s, sid, room);
      && ((exists e :: e in t.outbox[|s.outbox|..] && e.event == UserJoined(sid))
          <==> (room in t.rooms && |t.rooms[room].users| == 2 && sid in t.rooms[room].users))
      && (forall e :: e in t.outbox[|s.outbox|..] && e.event.UserJoined? ==>
            e.targets == Others(JoinTags(s.tags, sid, room), room, sid))
  {
  }

  /** Join touches only the joined key in the table: a room the session
      belonged to before keeps listing it, although the session is detached
      from that room at the transport level. */
  lemma JoinLeavesOtherRooms(s: State, sid: SessionId, room: RoomKey, other: RoomKey)
    requires sid in s.tags && other != room
    ensures var t := AfterJoin(s, sid, room);
      && (other in t.rooms <==> other in s.rooms)
      && (other in s.rooms ==> t.rooms[other] == s.rooms[other])
      && (other != sid ==> other !in t.tags[sid])
  {
  }

  /** Join keeps every room well formed: at most two users, no duplicate, the
      initiator a member. */
  lemma JoinPreservesConsistency(s: State, sid: SessionId, room: RoomKey)
    requires Consistent(s) && sid in s.tags
    ensures Consistent(AfterJoin(s, sid, room))
  {
  }

  // ---------------------------------------------------------------- leave

  /** Leaving a key that is not in the table changes no room and emits
      nothing; only the transport tag goes. */
  lemma LeaveUnknownRoom(s: State, sid: SessionId, room: RoomKey)
    requires sid in s.tags && room !in s.rooms
    ensures var t := AfterLeave(s, sid, room);
      && t.rooms == s.rooms
      && t.outbox == s.outbox
      && t.tags == s.tags[sid := s.tags[sid] - {room}]
  {
  }

  /** A member's leave removes exactly that member, keeping the others in
      order; the room is deleted exactly when nobody remains; everyone else on
      the room's transport tag hears `user-left`; other rooms are untouched. */
  lemma LeaveRemovesOnlyLeaver(s: State, sid: SessionId, room: RoomKey, i: nat)
    requires Consistent(s) && sid in s.tags
    requires room in s.rooms && i < |s.rooms[room].users| && s.rooms[room].users[i] == sid
    ensures var t := AfterLeave(s, sid, room);
      var users := s.rooms[room].users;
      && (room in t.rooms <==> |users| > 1)
      && (room in t.rooms ==> t.rooms[room].users == users[..i] + users[i + 1..])
      && t.outbox == s.outbox + [Emit(Others(s.tags, room, sid), UserLeft(sid))]
      && (forall k :: k != room ==> (k in t.rooms <==> k in s.rooms))
      && (forall k :: k != room && k in s.rooms ==> t.rooms[k] == s.rooms[k])
  {
    WithoutAt(s.rooms[room].users, i);
  }

  /** The initiator role passes on: when the initiator leaves and users
      remain, the first remaining user becomes initiator; otherwise the
      initiator is unchanged. */
  lemma LeaveHandsOffInitiator(s: State, sid: SessionId, room: RoomKey)
    requires Consistent(s) && sid in s.tags && room in s.rooms
    requires room in AfterLeave(s, sid, room).rooms
    ensures var before := s.rooms[room];
      var after := AfterLeave(s, sid, room).rooms[room];
      && after.users == Without(before.users, sid)
      && (before.initiator == Some(sid) ==> after.initiator == Some(after.users[0]))
      && (before.initiator != Some(sid) ==> after.initiator == before.initiator)
  {
  }

  /** In a paired room, whichever member leaves, the one who stays is the
      sole user and the initiator. */
  lemma LeavePairedRoom(s: State, sid: SessionId, room: RoomKey)
    requires Consistent(s) && sid in s.tags
    requires room in s.rooms && |s.rooms[room].users| == 2 && sid in s.rooms[room].users
    ensures var users := s.rooms[room].users;
      var stay := if users[0] == sid then users[1] else users[0];
      var t := AfterLeave(s, sid, room);
      room in t.rooms && t.rooms[room] == Room([stay], Some(stay))
  {
    var users := s.rooms[room].users;
    if users[0] == sid {
      WithoutAt(users, 0);
    } else {
      WithoutAt(users, 1);
    }
  }

  /** `leave` by a session that is not a member still tells the room's other
      transport members that it left, and changes no membership. */
  lemma LeaveByNonMember(s: State, sid: SessionId, room: RoomKey)
    requires Consistent(s) && sid in s.tags
    requires room in s.rooms && sid !in s.rooms[room].users
    ensures var t := AfterLeave(s, sid, room);
      && t.rooms == s.rooms
      && t.outbox == s.outbox + [Emit(Others(s.tags, room, sid), UserLeft(sid))]
  {
    var info := s.rooms[room];
    WithoutAbsent(info.users, sid);
    assert s.rooms[room := Room(info.users, info.initiator)] == s.rooms;
  }

  /** Leave keeps every room well formed and never keeps an empty room. */
  lemma LeavePreservesConsistency(s: State, sid: SessionId, room: RoomKey)
    requires Consistent(s) && sid in s.tags
    ensures Consistent(AfterLeave(s, sid, room))
  {
  }

  // ---------------------------------------------------------------- relay

  /** A relayed message reaches, unmodified, every session on the named
      room's transport tag except the sender, never the sender, and changes no
      other state. Which rooms the table holds plays no part. */
  lemma RelayToOthersOnly(s: State, sid: SessionId, kind: RelayKind, data: Signal)
    ensures var t := AfterRelay(s, sid, kind, data);
      && t.rooms == s.rooms && t.tags == s.tags
      && |t.outbox| == |s.outbox| + 1 && t.outbox[..|s.outbox|] == s.outbox
      && var e := t.outbox[|s.outbox|];
      && e.event == Relayed(kind, data)
      && sid !in e.targets
      && (forall u :: u in e.targets <==> u in s.tags && data.room in s.tags[u] && u != sid)
  {
  }

  // ---------------------------------------------------------------- disconnect

  /** Disconnect keeps every room well formed. */
  lemma {:induction false} LeaveEachPreservesConsistency(s: State, sid: SessionId, seen: seq<RoomKey>)
    requires Consistent(s) && sid in s.tags
    ensures Consistent(LeaveEach(s, sid, seen))
    decreases |seen|
  {
    if seen != [] {
      var next := if seen[0] != sid then AfterLeave(s, sid, seen[0]) else s;
      LeavePreservesConsistency(s, sid, seen[0]);
      LeaveEachPreservesConsistency(next, sid, seen[1..]);
    }
  }

  lemma DisconnectPreservesConsistency(s: State, sid: SessionId, seen: seq<RoomKey>)
    requires Consistent(s) && sid in s.tags
    ensures Consistent(AfterDisconnect(s, sid, seen))
  {
    LeaveEachPreservesConsistency(s, sid, seen);
  }

  /** Disconnect reconciles only the rooms the transport still reports: a
      room whose key is not among them keeps its entry, even one that still
      lists the departing session. */
  lemma {:induction false} LeaveEachKeepsUnseenRooms(s: State, sid: SessionId, seen: seq<RoomKey>, k: RoomKey)
    requires sid in s.tags && k !in seen
    ensures var t := LeaveEach(s, sid, seen);
      && (k in t.rooms <==> k in s.rooms)
      && (k in s.rooms ==> t.rooms[k] == s.rooms[k])
    decreases |seen|
  {
    if seen != [] {
      var next := if seen[0] != sid then AfterLeave(s, sid, seen[0]) else s;
      LeaveEachKeepsUnseenRooms(next, sid, seen[1..], k);
    }
  }

  lemma DisconnectKeepsUnseenRooms(s: State, sid: SessionId, seen: seq<RoomKey>, k: RoomKey)
    requires sid in s.tags && k !in seen
    ensures var t := AfterDisconnect(s, sid, seen);
      && (k in t.rooms <==> k in s.rooms)
      && (k in s.rooms ==> t.rooms[k] == s.rooms[k])
      && sid !in t.tags
  {
    LeaveEachKeepsUnseenRooms(s, sid, seen, k);
  }

  /** Disconnect takes the session out of every room the transport reports
      for it: such a room is either deleted or no longer lists the session,
      whatever the other reported tags are. */
  lemma {:induction false} LeaveEachRemovesSession(s: State, sid: SessionId, seen: seq<RoomKey>, k: RoomKey)
    requires sid in s.tags && k in seen && k != sid
    ensures var t := LeaveEach(s, sid, seen);
      k in t.rooms ==> sid !in t.rooms[k].users
    decreases |seen|
  {
    var next := if seen[0] != sid then AfterLeave(s, sid, seen[0]) else s;
    assert LeaveEach(s, sid, seen) == LeaveEach(next, sid, seen[1..]);
    if k in seen[1..] {
      LeaveEachRemovesSession(next, sid, seen[1..], k);
    } else {
      assert seen[0] == k;
      assert k in next.rooms ==> sid !in next.rooms[k].users;
      LeaveEachKeepsUnseenRooms(next, sid, seen[1..], k);
    }
  }

  /** Every reported room still in the table when its turn comes is told, by
      a `user-left` emit to the other sessions on its tag, that the session
      left. */
  lemma {:induction false} LeaveEachReportsSeenRooms(s: State, sid: SessionId, seen: seq<RoomKey>, k: RoomKey)
    requires sid in s.tags && k in seen && k != sid && k in s.rooms
    ensures var t := LeaveEach(s, sid, seen);
      exists i :: |s.outbox| <= i < |t.outbox| && t.outbox[i] == Emit(Others(s.tags, k, sid), UserLeft(sid))
    decreases |seen|
  {
    var next := if seen[0] != sid then AfterLeave(s, sid, seen[0]) else s;
    var t := LeaveEach(next, sid, seen[1..]);
    assert LeaveEach(s, sid, seen) == t;
    if seen[0] == k {
      assert next.outbox == s.outbox + [Emit(Others(s.tags, k, sid), UserLeft(sid))];
      assert next.outbox <= t.outbox;
      assert |s.outbox| < |t.outbox| && t.outbox[|s.outbox|] == Emit(Others(s.tags, k, sid), UserLeft(sid));
      assert exists i :: |s.outbox| <= i < |t.outbox| && t.outbox[i] == Emit(Others(s.tags, k, sid), UserLeft(sid));
    } else {
      assert k in seen[1..];
      assert Others(next.tags, k, sid) == Others(s.tags, k, sid);
      LeaveEachReportsSeenRooms(next, sid, seen[1..], k);
    }
  }

  /** A room the session is not in, whose initiator is someone else, comes
      through the disconnect loop unchanged, however often its key is
      reported: the filter finds nothing to drop and the room is not empty. */
  lemma {:induction false} LeaveEachKeepsCleared(s: State, sid: SessionId, seen: seq<RoomKey>, k: RoomKey)
    requires sid in s.tags && k in s.rooms
    requires sid !in s.rooms[k].users && s.rooms[k].users != [] && s.rooms[k].initiator != Some(sid)
    ensures var t := LeaveEach(s, sid, seen);
      k in t.rooms && t.rooms[k] == s.rooms[k]
    decreases |seen|
  {
    if seen != [] {
      var next := if seen[0] != sid then AfterLeave(s, sid, seen[0]) else s;
      if seen[0] == k {
        WithoutAbsent(s.rooms[k].users, sid);
      }
      assert k in next.rooms && next.rooms[k] == s.rooms[k];
      LeaveEachKeepsCleared(next, sid, seen[1..], k);
    }
  }

  /** What disconnect leaves of a reported room that is in the table: the
      room is deleted exactly when the session was its last user; otherwise
      it keeps the other users in order, and the first of them becomes
      initiator if the session was. */
  lemma {:induction false} LeaveEachKeepsRemaining(s: State, sid: SessionId, seen: seq<RoomKey>, k: RoomKey)
    requires sid in s.tags && k in seen && k != sid && k in s.rooms
    ensures var before := s.rooms[k];
      var users := Without(before.users, sid);
      var t := LeaveEach(s, sid, seen);
      && (k in t.rooms <==> users != [])
      && (users != [] ==>
            t.rooms[k] == Room(users, if before.initiator == Some(sid) then Some(users[0]) else before.initiator))
    decreases |seen|
  {
    var next := if seen[0] != sid then AfterLeave(s, sid, seen[0]) else s;
    assert LeaveEach(s, sid, seen) == LeaveEach(next, sid, seen[1..]);
    if seen[0] == k {
      if Without(s.rooms[k].users, sid) != [] {
        LeaveEachKeepsCleared(next, sid, seen[1..], k);
      }
    } else {
      assert k in seen[1..];
      LeaveEachKeepsRemaining(next, sid, seen[1..], k);
    }
  }

  /** A disconnect deletes a reported room exactly when the session was its
      last user, and leaves any other reported room with its remaining users
      and, if the session was initiator, the first of them as initiator. */
  lemma DisconnectKeepsRemaining(s: State, sid: SessionId, seen: seq<RoomKey>, k: RoomKey)
    requires sid in s.tags && k in seen && k != sid && k in s.rooms
    ensures var before := s.rooms[k];
      var users := Without(before.users, sid);
      var t := AfterDisconnect(s, sid, seen);
      && (k in t.rooms <==> users != [])
      && (users != [] ==>
            t.rooms[k] == Room(users, if before.initiator == Some(sid) then Some(users[0]) else before.initiator))
  {
    LeaveEachKeepsRemaining(s, sid, seen, k);
  }

  /** After a disconnect no room whose key the transport reported lists the
      session any more, each of those that was in the table heard `user-left`
      from it, and the transport forgets the session. */
  lemma DisconnectRemovesSession(s: State, sid: SessionId, seen: seq<RoomKey>, k: RoomKey)
    requires sid in s.tags && k in seen && k != sid
    ensures var t := AfterDisconnect(s, sid, seen);
      && (k in t.rooms ==> sid !in t.rooms[k].users)
      && (k in s.rooms ==>
            exists i :: |s.outbox| <= i < |t.outbox| && t.outbox[i] == Emit(Others(s.tags, k, sid), UserLeft(sid)))
      && sid !in t.tags
  {
    LeaveEachRemovesSession(s, sid, seen, k);
    if k in s.rooms {
      LeaveEachReportsSeenRooms(s, sid, seen, k);
    }
  }
}
