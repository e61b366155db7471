/** The badge total of `useUnreadCount`: the signed-in user's unread counters
    summed over the rooms whose `members` contain the user. */
module Unread {
  import opened Common
  import opened Chat

  /** What one room adds to `uid`'s badge: its counter for `uid` when `uid`
      is a member, nothing otherwise. */
  function Contribution(d: RoomDoc, uid: string): (n: int)
    ensures uid !in d.members ==> n == 0
    ensures uid in d.members ==> n == UnreadOf(d.unreadCounts, uid)
  {
    if uid in d.members then UnreadOf(d.unreadCounts, uid) else 0
  }

  /** The badge: the sum, over every room, of that room's contribution. */
  function UnreadTotal(rooms: seq<RoomDoc>, uid: string): int
  {
    if rooms == [] then 0
    else UnreadTotal(rooms[..|rooms| - 1], uid) + Contribution(rooms[|rooms| - 1], uid)
  }

  /** The query `where('members', 'array-contains', uid)` over the rooms, in
      their order. */
  function MemberRooms(rooms: seq<RoomDoc>, uid: string): (r: seq<RoomDoc>)
    ensures forall d :: d in r <==> d in rooms && uid in d.members
    ensures |r| <= |rooms|
  {
    if rooms == [] then []
    else
      var init := MemberRooms(rooms[..|rooms| - 1], uid);
      var last := rooms[|rooms| - 1];
      assert rooms == rooms[..|rooms| - 1] + [last];
      if uid in last.members then init + [last] else init
  }

  /** The listener's accumulator: the counters of the snapshot's rooms, a
      non-number counter adding nothing. */
  function SnapshotSum(snapshot: seq<RoomDoc>, uid: string): int
  {
    if snapshot == [] then 0
    else SnapshotSum(snapshot[..|snapshot| - 1], uid) + UnreadOf(snapshot[|snapshot| - 1].unreadCounts, uid)
  }

  /** Summing the query's rooms gives the same total as summing every
      room's contribution. */
  lemma {:induction false} SnapshotSumIsTotal(rooms: seq<RoomDoc>, uid: string)
    ensures SnapshotSum(MemberRooms(rooms, uid), uid) == UnreadTotal(rooms, uid)
  {
    if rooms != [] {
      var init := rooms[..|rooms| - 1];
      var last := rooms[|rooms| - 1];
      SnapshotSumIsTotal(init, uid);
      var m := MemberRooms(init, uid);
      if uid in last.members {
        assert (m + [last])[..|m + [last]| - 1] == m;
      }
    }
  }

  /** The listener body: `count += roomUnread` for every room of the
      snapshot whose counter for `uid` is a number. */
  method CountUnread(snapshot: seq<RoomDoc>, uid: string) returns (count: int)
    ensures count == SnapshotSum(snapshot, uid)
  {
    count := 0;
    var i := 0;
    while i < |snapshot|
      invariant 0 <= i <= |snapshot|
      invariant count == SnapshotSum(snapshot[..i], uid)
    {
      var counts := snapshot[i].unreadCounts;
      assert snapshot[..i + 1][..i] == snapshot[..i];
      if uid in counts && counts[uid].Count? {
        count := count + counts[uid].n;
      }
      i := i + 1;
    }
    assert snapshot[..|snapshot|] == snapshot;
  }

  /** `useUnreadCount` for the signed-in uid over all rooms of the store: 0
      without a uid, else the badge total. */
  method TotalUnread(uid: Option<string>, rooms: seq<RoomDoc>) returns (total: int)
    ensures !Truthy(uid) ==> total == 0
    ensures Truthy(uid) ==> total == UnreadTotal(rooms, uid.value)
  {
    if !Truthy(uid) {
      return 0;
    }
    var snapshot := MemberRooms(rooms, uid.value);
    total := CountUnread(snapshot, uid.value);
    SnapshotSumIsTotal(rooms, uid.value);
  }

  /** Replacing one room changes the total by the difference of the two
      rooms' contributions. */
  lemma {:induction false} TotalAfterReplace(rooms: seq<RoomDoc>, i: int, d: RoomDoc, uid: string)
    requires 0 <= i < |rooms|
    ensures UnreadTotal(rooms[i := d], uid)
         == UnreadTotal(rooms, uid) - Contribution(rooms[i], uid) + Contribution(d, uid)
  {
    var n := |rooms|;
    var r := rooms[i := d];
    if i == n - 1 {
      assert r[..n - 1] == rooms[..n - 1];
    } else {
      assert r[..n - 1] == rooms[..n - 1][i := d];
      TotalAfterReplace(rooms[..n - 1], i, d, uid);
    }
  }

  /** Other members' counters and rooms without `uid` never affect the total. */
  lemma {:induction false} TotalDependsOnlyOnOwnCounters(a: seq<RoomDoc>, b: seq<RoomDoc>, uid: string)
    requires |a| == |b|
    requires forall i :: 0 <= i < |a| ==> Contribution(a[i], uid) == Contribution(b[i], uid)
    ensures UnreadTotal(a, uid) == UnreadTotal(b, uid)
  {
    if a != [] {
      TotalDependsOnlyOnOwnCounters(a[..|a| - 1], b[..|b| - 1], uid);
    }
  }

  /** One send raises the partner's badge by exactly one (the room either
      already listed the partner or held no counter for them). */
  lemma SendRaisesPartnerTotal(rooms: seq<RoomDoc>, i: int, c: string, p: string, m: OutgoingMessage, t: int)
    requires 0 <= i < |rooms|
    requires p in rooms[i].members || UnreadOf(rooms[i].unreadCounts, p) == 0
    ensures UnreadTotal(rooms[i := AfterSend(rooms[i], c, p, m, t)], p) == UnreadTotal(rooms, p) + 1
  {
    AfterSendCounters(rooms[i], c, p, m, t);
    TotalAfterReplace(rooms, i, AfterSend(rooms[i], c, p, m, t), p);
  }

  /** A send leaves the sender's own badge as it was. */
  lemma SendKeepsSenderTotal(rooms: seq<RoomDoc>, i: int, c: string, p: string, m: OutgoingMessage, t: int)
    requires 0 <= i < |rooms| && c != p
    requires c in rooms[i].members || UnreadOf(rooms[i].unreadCounts, c) == 0
    ensures UnreadTotal(rooms[i := AfterSend(rooms[i], c, p, m, t)], c) == UnreadTotal(rooms, c)
  {
    AfterSendCounters(rooms[i], c, p, m, t);
    TotalAfterReplace(rooms, i, AfterSend(rooms[i], c, p, m, t), c);
  }

  /** Reading a room removes exactly that room's share of the reader's badge
      and leaves every other user's badge unchanged. */
  lemma ReadClearsRoomShare(rooms: seq<RoomDoc>, i: int, c: string, k: string)
    requires 0 <= i < |rooms| && k != c
    ensures UnreadTotal(rooms[i := AfterRead(rooms[i], c)], c) == UnreadTotal(rooms, c) - Contribution(rooms[i], c)
    ensures UnreadTotal(rooms[i := AfterRead(rooms[i], c)], k) == UnreadTotal(rooms, k)
  {
    AfterReadCounters(rooms[i], c);
    TotalAfterReplace(rooms, i, AfterRead(rooms[i], c), c);
    TotalAfterReplace(rooms, i, AfterRead(rooms[i], c), k);
  }

  /** "u1" sends three messages to "u2": u2's counter is 3; u1 reading leaves
      it at 3; u2 reading brings it to 0. */
  lemma ThreeSendsScenario(m: OutgoingMessage, t: int)
    ensures var empty := RoomDoc([], None, None, map[]);
            var sent := AfterSend(AfterSend(AfterSend(empty, "u1", "u2", m, t), "u1", "u2", m, t), "u1", "u2", m, t);
            UnreadOf(sent.unreadCounts, "u2") == 3 &&
            UnreadOf(AfterRead(sent, "u1").unreadCounts, "u2") == 3 &&
            UnreadOf(AfterRead(AfterRead(sent, "u1"), "u2").unreadCounts, "u2") == 0
  {
    var empty := RoomDoc([], None, None, map[]);
    var s1 := AfterSend(empty, "u1", "u2", m, t);
    var s2 := AfterSend(s1, "u1", "u2", m, t);
    var s3 := AfterSend(s2, "u1", "u2", m, t);
    AfterSendCounters(empty, "u1", "u2", m, t);
    AfterSendCounters(s1, "u1", "u2", m, t);
    AfterSendCounters(s2, "u1", "u2", m, t);
    AfterReadCounters(s3, "u1");
    AfterReadCounters(AfterRead(s3, "u1"), "u2");
  }
}
