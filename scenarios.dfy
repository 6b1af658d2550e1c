/** A concrete run of the handlers: two peers pair up in room "r1", a third is
    turned away, the initiator disconnects and the other peer leaves. Each
    state is written out in full and each lemma proves one handler takes the
    run from one state to the next. */
module Scenarios {
  import opened Rooms
  import opened Coordinator

  /** Three connected sessions, each holding only its own tag; no room. */
  function Connected(): (s: State) {
    State(map[], map["A" := {"A"}, "B" := {"B"}, "C" := {"C"}], [])
  }

  function AloneInR1(): (s: State) {
    State(map["r1" := Room(["A"], Some("A"))],
          map["A" := {"A", "r1"}, "B" := {"B"}, "C" := {"C"}],
          [Emit({"A"}, Joined(true, 1))])
  }

  function PairedInR1(): (s: State) {
    State(map["r1" := Room(["A", "B"], Some("A"))],
          map["A" := {"A", "r1"}, "B" := {"B", "r1"}, "C" := {"C"}],
          AloneInR1().outbox + [Emit({"B"}, Joined(false, 2)), Emit({"A"}, UserJoined("B"))])
  }

  function ThirdTurnedAway(): (s: State) {
    PairedInR1().(outbox := PairedInR1().outbox + [Emit({"C"}, Joined(false, 3)), Emit({"C"}, RoomFull)])
  }

  function InitiatorGone(): (s: State) {
    State(map["r1" := Room(["B"], Some("B"))],
          map["B" := {"B", "r1"}, "C" := {"C"}],
          ThirdTurnedAway().outbox + [Emit({"B"}, UserLeft("A"))])
  }

  function AllGone(): (s: State) {
    State(map[], map["B" := {"B"}, "C" := {"C"}],
          InitiatorGone().outbox + [Emit({}, UserLeft("B"))])
  }

  /** A joins the unseen "r1": it becomes the sole user and initiator and is
      told `joined {isFirst: true, userCount: 1}`; nobody else hears of it. */
  lemma FirstJoinerInitiates()
    ensures AfterJoin(Connected(), "A", "r1") == AloneInR1()
  {
    var s := Connected();
    assert {"A"} * {"A"} + {"r1"} == {"A", "r1"};
    assert JoinTags(s.tags, "A", "r1") == AloneInR1().tags;
    assert Admit(EmptyRoom, "A") == Room(["A"], Some("A"));
  }

  /** B joins: it is told `joined {isFirst: false, userCount: 2}` and A, the
      only other session on the "r1" tag, hears `user-joined` naming B. */
  lemma SecondJoinerNotifiesFirst()
    ensures AfterJoin(AloneInR1(), "B", "r1") == PairedInR1()
  {
    var s := AloneInR1();
    assert {"B"} * {"B"} + {"r1"} == {"B", "r1"};
    var tags := JoinTags(s.tags, "B", "r1");
    assert tags == PairedInR1().tags;
    assert Others(tags, "r1", "B") == {"A"};
    assert Admit(s.rooms["r1"], "B") == Room(["A", "B"], Some("A"));
  }

  /** C joins the full room: it hears it is the third user, then
      `room-full`; the room stays [A, B] with initiator A and C's tags are
      back to its own. */
  lemma ThirdJoinerTurnedAway()
    ensures AfterJoin(PairedInR1(), "C", "r1") == ThirdTurnedAway()
  {
    ThirdJoinerListed();
    ThirdJoinerRejected();
  }

  /** The state inside C's join once C is pushed onto the users of "r1". */
  function ThirdListed(): (s: State) {
    PairedInR1().(rooms := map["r1" := Room(["A", "B", "C"], Some("A"))],
                  tags := map["A" := {"A", "r1"}, "B" := {"B", "r1"}, "C" := {"C", "r1"}])
  }

  lemma ThirdJoinerListed()
    ensures AfterJoin(PairedInR1(), "C", "r1") == Announce(ThirdListed(), "C", "r1")
  {
    var s := PairedInR1();
    assert {"C"} * {"C"} + {"r1"} == {"C", "r1"};
    assert JoinTags(s.tags, "C", "r1") == ThirdListed().tags;
    assert Admit(s.rooms["r1"], "C") == Room(["A", "B", "C"], Some("A"));
  }

  lemma ThirdJoinerRejected()
    ensures Announce(ThirdListed(), "C", "r1") == ThirdTurnedAway()
  {
    var s := ThirdListed();
    WithoutAppended(["A", "B"], "C");
    assert {"C", "r1"} - {"r1"} == {"C"};
    assert s.tags["C" := {"C"}] == ThirdTurnedAway().tags;
    assert s.rooms["r1" := Room(["A", "B"], Some("A"))] == ThirdTurnedAway().rooms;
  }

  /** A disconnects while its transport still reports its own tag and "r1":
      B hears `user-left` naming A and becomes the sole user and initiator,
      and the transport forgets A. */
  lemma InitiatorDisconnectHandsOff()
    ensures AfterDisconnect(ThirdTurnedAway(), "A", ["A", "r1"]) == InitiatorGone()
  {
    InitiatorDisconnectLoop();
    InitiatorForgotten();
  }

  /** Once A's disconnect returns, the transport holds only B's and C's tags. */
  lemma InitiatorForgotten()
    ensures InitiatorLeft().tags - {"A"} == InitiatorGone().tags
  {
  }

  /** The state once A's `handleUserLeave` for "r1" has run, before the
      transport forgets A. */
  function InitiatorLeft(): (s: State) {
    InitiatorGone().(tags := map["A" := {"A"}, "B" := {"B", "r1"}, "C" := {"C"}])
  }

  /** The loop of A's disconnect skips A's own tag and leaves "r1". */
  lemma InitiatorDisconnectLoop()
    ensures LeaveEach(ThirdTurnedAway(), "A", ["A", "r1"]) == InitiatorLeft()
  {
    var s := ThirdTurnedAway();
    assert LeaveEach(s, "A", ["A", "r1"]) == LeaveEach(s, "A", ["r1"]);
    assert ["r1"][1..] == [];
    InitiatorLeavesPairedRoom();
  }

  /** The one `handleUserLeave` that A's disconnect runs. */
  lemma InitiatorLeavesPairedRoom()
    ensures AfterLeave(ThirdTurnedAway(), "A", "r1") == InitiatorLeft()
  {
    var s := ThirdTurnedAway();
    var t := AfterLeave(s, "A", "r1");
    assert Without(["A", "B"], "A") == ["B"];
    assert t.rooms == InitiatorLeft().rooms;
    assert Others(s.tags, "r1", "A") == {"B"};
    assert t.outbox == InitiatorLeft().outbox;
    assert {"A", "r1"} - {"r1"} == {"A"};
    assert t.tags == InitiatorLeft().tags;
  }

  /** B leaves: nobody is left on the "r1" tag to hear it, and the now empty
      room is deleted from the table. */
  lemma LastLeaverDeletesRoom()
    ensures AfterLeave(InitiatorGone(), "B", "r1") == AllGone()
  {
    var s := InitiatorGone();
    assert Others(s.tags, "r1", "B") == {};
    assert {"B", "r1"} - {"r1"} == {"B"};
    assert s.tags["B" := {"B"}] == AllGone().tags;
    assert s.rooms - {"r1"} == map[];
  }
}
