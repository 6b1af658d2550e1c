/** One entry of the signaling server's room table and the two list operations
    the handlers perform on its `users`: the membership push of a join and the
    `filter` that removes a departing session. */
module Rooms {

  /** socket.io connection id. */
  type SessionId = string
  /** Client-chosen room token. */
  type RoomKey = string

  /** `null` or a value, as the room's `initiator` field holds. */
  datatype Option<T> = None | Some(value: T)

  /** The value stored under a room key: the members in join order, and the
      session designated as connection initiator (`null` until the first push). */
  datatype Room = Room(users: seq<SessionId>, initiator: Option<SessionId>)

  /** The table entry a join creates for an unseen key. */
  const EmptyRoom := Room([], None)

  predicate Distinct<T(==)>(s: seq<T>) {
    forall i, j :: 0 <= i < j < |s| ==> s[i] != s[j]
  }

  /** The invariant every entry of the table keeps between two events: one or
      two members, no session listed twice, and the initiator is a member. */
  predicate WellFormed(r: Room) {
    && 1 <= |r.users| <= 2
    && Distinct(r.users)
    && r.initiator.Some?
    && r.initiator.value in r.users
  }

  /** `users.filter(id => id !== x)`: every occurrence of `x` is dropped and
      the other members keep their order. */
  function Without(s: seq<SessionId>, x: SessionId): (r: seq<SessionId>)
    ensures forall y :: y in r <==> y in s && y != x
    ensures |r| <= |s|
    ensures x in s ==> |r| < |s|
    ensures Distinct(s) ==> Distinct(r)
  {
    if s == [] then []
    else if s[0] == x then Without(s[1..], x)
    else
      var rest := Without(s[1..], x);
      assert Distinct(s) ==> Distinct(s[1..]) && s[0] !in rest by {
        if Distinct(s) {
          forall i, j | 0 <= i < j < |s[1..]| ensures s[1..][i] != s[1..][j] {
            assert s[1..][i] == s[i + 1] && s[1..][j] == s[j + 1];
          }
          assert s[0] !in s[1..];
        }
      }
      [s[0]] + rest
  }

  /** Filtering out a value that is not there changes nothing. */
  lemma {:induction false} WithoutAbsent(s: seq<SessionId>, x: SessionId)
    requires x !in s
    ensures Without(s, x) == s
  {
    if s != [] {
      WithoutAbsent(s[1..], x);
    }
  }

  /** Pushing a new value and filtering it out again gives back the list. */
  lemma {:induction false} WithoutAppended(s: seq<SessionId>, x: SessionId)
    requires x !in s
    ensures Without(s + [x], x) == s
  {
    if s != [] {
      assert (s + [x])[1..] == s[1..] + [x];
      WithoutAppended(s[1..], x);
    }
  }

  /** In a duplicate-free list, the filter removes exactly the one position
      holding the value and keeps everything before and after it in order. */
  lemma {:induction false} WithoutAt(s: seq<SessionId>, i: nat)
    requires i < |s| && Distinct(s)
    ensures Without(s, s[i]) == s[..i] + s[i + 1..]
  {
    if i == 0 {
      WithoutAbsent(s[1..], s[0]);
    } else {
      assert Distinct(s[1..]);
      WithoutAt(s[1..], i - 1);
      assert s[1..][..i - 1] == s[1..i];
      assert s[1..][i..] == s[i + 1..];
      assert [s[0]] + s[1..i] == s[..i];
    }
  }

  /** The membership part of a join (the `includes` test, the `push`, and the
      first-user-becomes-initiator rule). */
  function Admit(r: Room, sid: SessionId): (a: Room)
    ensures sid in a.users
    ensures sid in r.users ==> a == r
    ensures sid !in r.users ==> a.users == r.users + [sid]
    ensures Distinct(r.users) ==> Distinct(a.users)
    ensures r.users == [] ==> a.initiator == Some(sid)
    ensures r.users != [] ==> a.initiator == r.initiator
  {
    if sid in r.users then r
    else
      var users := r.users + [sid];
      Room(users, if |users| == 1 then Some(sid) else r.initiator)
  }
}
