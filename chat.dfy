/** The two-party chat room of `useChat`: the room id derived from the two
    user ids, the mapping of stored message documents to the chat view, and
    the two writes of the hook — `onSend` (append a message, then merge the
    room summary and raise the partner's unread counter) and `markAsRead`
    (zero the caller's counter). */
module Chat {
  import opened Common

  /** The room summary written when a message has an image and no text. */
  const PhotoMarker: string := "📷 画像を送信しました"

  // ---------------------------------------------------------------------
  // Room identity
  // ---------------------------------------------------------------------

  /** The order `Array.prototype.sort` uses for strings: `a` sorts strictly
      before `b`. */
  predicate StrLess(a: string, b: string)
    decreases |a|
  {
    if b == [] then false
    else if a == [] then true
    else if a[0] != b[0] then a[0] < b[0]
    else StrLess(a[1..], b[1..])
  }

  lemma {:induction false} StrLessAsymmetric(a: string, b: string)
    ensures !(StrLess(a, b) && StrLess(b, a))
    decreases |a|
  {
    if a != [] && b != [] && a[0] == b[0] {
      StrLessAsymmetric(a[1..], b[1..]);
    }
  }

  lemma {:induction false} StrLessTotal(a: string, b: string)
    requires a != b
    ensures StrLess(a, b) || StrLess(b, a)
    decreases |a|
  {
    if a != [] && b != [] && a[0] == b[0] {
      StrLessTotal(a[1..], b[1..]);
    }
  }

  /** `[a, b].sort()`: the two ids, the smaller first. */
  function SortedPair(a: string, b: string): (p: seq<string>)
    ensures p == [a, b] || p == [b, a]
    ensures !StrLess(p[1], p[0])
  {
    StrLessAsymmetric(a, b);
    if StrLess(b, a) then [b, a] else [a, b]
  }

  /** The room id `${ids[0]}_${ids[1]}` of the sorted pair. */
  function RoomId(a: string, b: string): (r: string)
    ensures r == a + "_" + b || r == b + "_" + a
  {
    var p := SortedPair(a, b);
    p[0] + "_" + p[1]
  }

  /** Both users derive the same room and the same member list. */
  lemma RoomIdSymmetric(a: string, b: string)
    ensures RoomId(a, b) == RoomId(b, a)
    ensures SortedPair(a, b) == SortedPair(b, a)
  {
    if a != b {
      StrLessTotal(a, b);
      StrLessAsymmetric(a, b);
    }
  }

  /** The room id is the smaller id, `_`, then the larger id, whichever
      order the two are given in. */
  lemma RoomIdIsOrderedJoin(lo: string, hi: string)
    requires !StrLess(hi, lo)
    ensures RoomId(lo, hi) == lo + "_" + hi
    ensures RoomId(hi, lo) == lo + "_" + hi
  {
    if lo != hi {
      StrLessTotal(lo, hi);
    }
  }

  lemma RoomIdExample()
    ensures RoomId("u1", "u2") == RoomId("u2", "u1") == "u1_u2"
  {
    RoomIdIsOrderedJoin("u1", "u2");
  }

  /** The hook's room id: none unless both ids are truthy; nothing rejects
      two equal ids. */
  function RoomIdFor(currentUserId: Option<string>, partnerUserId: Option<string>): (r: Option<string>)
    ensures r.Some? <==> Truthy(currentUserId) && Truthy(partnerUserId)
    ensures r.Some? ==> r.value == RoomId(currentUserId.value, partnerUserId.value)
    ensures Truthy(currentUserId) && currentUserId == partnerUserId ==>
              r == Some(currentUserId.value + "_" + currentUserId.value)
  {
    if Truthy(currentUserId) && Truthy(partnerUserId)
    then Some(RoomId(currentUserId.value, partnerUserId.value))
    else None
  }

  // ---------------------------------------------------------------------
  // Messages
  // ---------------------------------------------------------------------

  datatype ChatUser = ChatUser(id: string, name: string)

  const UnknownUser: ChatUser := ChatUser("unknown", "Unknown")

  /** The first element of the batch handed to `onSend`; `clientId` is its `_id`. */
  datatype OutgoingMessage = OutgoingMessage(clientId: string, text: string, user: ChatUser, image: Option<string>)

  /** A document of a room's `messages` subcollection with its document id. */
  datatype StoredMessage = StoredMessage(
    docId: string, clientId: string, text: Option<string>, createdAt: Option<int>,
    user: Option<ChatUser>, senderId: Option<string>, image: Option<string>)

  /** A message as the hook publishes it to the chat view. */
  datatype ChatMessage = ChatMessage(id: string, text: string, createdAt: int, user: ChatUser, image: Option<string>)

  /** The document `onSend` writes: sender is the current user, and the
      `image` field is there only when the message has a truthy image. */
  function NewMessageDoc(docId: string, m: OutgoingMessage, senderId: string, serverTime: int): (d: StoredMessage)
    ensures d.docId == docId && d.clientId == m.clientId
    ensures d.senderId == Some(senderId) && d.text == Some(m.text) && d.user == Some(m.user)
    ensures d.image.Some? <==> Truthy(m.image)
    ensures d.image.Some? ==> d.image == m.image
  {
    StoredMessage(docId, m.clientId, Some(m.text), Some(serverTime), Some(m.user), Some(senderId),
                  if Truthy(m.image) then m.image else None)
  }

  /** One snapshot document as the chat view sees it. The id is the document
      id; a pending server timestamp reads as the local clock `now`. */
  function ToChatMessage(d: StoredMessage, now: int): (m: ChatMessage)
    ensures m.id == d.docId
    ensures m.text == StrOr(d.text, "")
    ensures m.user == (if d.user.Some? then d.user.value else UnknownUser)
    ensures m.image == NonEmpty(d.image)
    ensures m.createdAt == (if d.createdAt.Some? then d.createdAt.value else now)
  {
    ChatMessage(d.docId, StrOr(d.text, ""),
                if d.createdAt.Some? then d.createdAt.value else now,
                if d.user.Some? then d.user.value else UnknownUser,
                NonEmpty(d.image))
  }

  /** A message written by `onSend` reads back with its own text, user and
      image, the server's timestamp and the document id. */
  lemma SendThenRead(docId: string, m: OutgoingMessage, senderId: string, serverTime: int, now: int)
    ensures ToChatMessage(NewMessageDoc(docId, m, senderId, serverTime), now)
         == ChatMessage(docId, m.text, serverTime, m.user, NonEmpty(m.image))
  {
  }

  /** The snapshot's documents, mapped one by one in query order. */
  function MapSnapshot(docs: seq<StoredMessage>, now: int): (r: seq<ChatMessage>)
    ensures |r| == |docs|
    ensures forall i :: 0 <= i < |docs| ==> r[i] == ToChatMessage(docs[i], now)
  {
    if docs == [] then [] else [ToChatMessage(docs[0], now)] + MapSnapshot(docs[1..], now)
  }

  /** The query's order: `createdAt` descending. */
  predicate NewestFirst(docs: seq<StoredMessage>) {
    forall i, j :: 0 <= i < j < |docs| ==>
      docs[i].createdAt.Some? && docs[j].createdAt.Some? && docs[j].createdAt.value <= docs[i].createdAt.value
  }

  /** Mapping keeps the newest-first order of a snapshot whose timestamps
      have all been resolved. */
  lemma MapSnapshotKeepsOrder(docs: seq<StoredMessage>, now: int)
    requires NewestFirst(docs)
    ensures forall i, j :: 0 <= i < j < |docs| ==>
      MapSnapshot(docs, now)[j].createdAt <= MapSnapshot(docs, now)[i].createdAt
  {
  }

  // ---------------------------------------------------------------------
  // The room document and its unread counters
  // ---------------------------------------------------------------------

  /** A value in the `unreadCounts` map: a number, or anything else. */
  datatype Counter = Count(n: int) | NotANumber

  /** A snapshot of a `chatRooms` document. An absent `members` field is the
      empty sequence. */
  datatype RoomDoc = RoomDoc(members: seq<string>, lastMessage: Option<string>, updatedAt: Option<int>,
                             unreadCounts: map<string, Counter>)

  /** What `unreadCounts?.[uid] || 0` contributes once non-numbers are
      dropped: the number, or 0. */
  function UnreadOf(counts: map<string, Counter>, uid: string): (n: int)
    ensures uid !in counts ==> n == 0
    ensures uid in counts && counts[uid].NotANumber? ==> n == 0
    ensures uid in counts && counts[uid].Count? ==> n == counts[uid].n
  {
    if uid in counts && counts[uid].Count? then counts[uid].n else 0
  }

  /** The merge of `{[uid]: increment(1)}`: a missing or non-numeric counter
      becomes 1; no other counter changes. */
  function Incremented(counts: map<string, Counter>, uid: string): (r: map<string, Counter>)
    ensures UnreadOf(r, uid) == UnreadOf(counts, uid) + 1
    ensures r.Keys == counts.Keys + {uid}
    ensures forall k :: k in counts && k != uid ==> r[k] == counts[k]
  {
    counts[uid := Count(UnreadOf(counts, uid) + 1)]
  }

  /** The merge of `{[uid]: 0}`: only that counter changes. */
  function Zeroed(counts: map<string, Counter>, uid: string): (r: map<string, Counter>)
    ensures uid in r && r[uid] == Count(0) && UnreadOf(r, uid) == 0
    ensures r.Keys == counts.Keys + {uid}
    ensures forall k :: k in counts && k != uid ==> r[k] == counts[k]
  {
    counts[uid := Count(0)]
  }

  /** The room summary: the text, or the photo marker for an image sent
      without text. */
  function LastMessageText(text: string, image: Option<string>): (r: string)
    ensures text != "" ==> r == text
    ensures text == "" && Truthy(image) ==> r == PhotoMarker
    ensures text == "" && !Truthy(image) ==> r == ""
  {
    if text == "" && Truthy(image) then PhotoMarker else text
  }

  /** The room document after the merge `onSend` writes. */
  function AfterSend(d: RoomDoc, currentUserId: string, partnerUserId: string, m: OutgoingMessage, serverTime: int): (r: RoomDoc)
    ensures r.members == SortedPair(currentUserId, partnerUserId)
    ensures multiset(r.members) == multiset{currentUserId, partnerUserId} && |r.members| == 2
    ensures r.members[0] + "_" + r.members[1] == RoomId(currentUserId, partnerUserId)
    ensures r.lastMessage == Some(LastMessageText(m.text, m.image)) && r.updatedAt == Some(serverTime)
    ensures UnreadOf(r.unreadCounts, partnerUserId) == UnreadOf(d.unreadCounts, partnerUserId) + 1
    ensures forall k :: k in d.unreadCounts && k != partnerUserId ==> k in r.unreadCounts && r.unreadCounts[k] == d.unreadCounts[k]
  {
    d.(members := SortedPair(currentUserId, partnerUserId),
       lastMessage := Some(LastMessageText(m.text, m.image)),
       updatedAt := Some(serverTime),
       unreadCounts := Incremented(d.unreadCounts, partnerUserId))
  }

  /** The room document after the merge `markAsRead` writes. */
  function AfterRead(d: RoomDoc, currentUserId: string): (r: RoomDoc)
    ensures r.members == d.members && r.lastMessage == d.lastMessage && r.updatedAt == d.updatedAt
    ensures UnreadOf(r.unreadCounts, currentUserId) == 0
    ensures forall k :: k in d.unreadCounts && k != currentUserId ==> k in r.unreadCounts && r.unreadCounts[k] == d.unreadCounts[k]
  {
    d.(unreadCounts := Zeroed(d.unreadCounts, currentUserId))
  }

  /** A send raises the partner's counter by exactly one, leaves every other
      member's counter as it was, and lists both users as members. */
  lemma AfterSendCounters(d: RoomDoc, c: string, p: string, m: OutgoingMessage, t: int)
    ensures UnreadOf(AfterSend(d, c, p, m, t).unreadCounts, p) == UnreadOf(d.unreadCounts, p) + 1
    ensures forall k :: k != p ==> UnreadOf(AfterSend(d, c, p, m, t).unreadCounts, k) == UnreadOf(d.unreadCounts, k)
    ensures c in AfterSend(d, c, p, m, t).members && p in AfterSend(d, c, p, m, t).members
  {
    var r := AfterSend(d, c, p, m, t).unreadCounts;
    assert r == d.unreadCounts[p := Count(UnreadOf(d.unreadCounts, p) + 1)];
    var pair := SortedPair(c, p);
    assert c in multiset(pair) && p in multiset(pair);
  }

  /** Reading zeroes the reader's counter, keeps every other counter, and a
      second read changes nothing. */
  lemma AfterReadCounters(d: RoomDoc, c: string)
    ensures UnreadOf(AfterRead(d, c).unreadCounts, c) == 0
    ensures forall k :: k != c ==> UnreadOf(AfterRead(d, c).unreadCounts, k) == UnreadOf(d.unreadCounts, k)
    ensures AfterRead(AfterRead(d, c), c) == AfterRead(d, c)
  {
    assert Zeroed(Zeroed(d.unreadCounts, c), c) == Zeroed(d.unreadCounts, c);
  }

  /** One `chatRooms/<id>` document together with its `messages`
      subcollection, updated in place by `onSend` and `markAsRead`. A room
      that was never written has no members, no summary and no counters. */
  class ChatRoom {
    const id: string
    var members: seq<string>
    var lastMessage: Option<string>
    var updatedAt: Option<int>
    var unreadCounts: map<string, Counter>
    var messages: seq<StoredMessage>

    constructor (id: string)
      ensures this.id == id
      ensures Doc() == RoomDoc([], None, None, map[]) && messages == []
    {
      this.id := id;
      members := [];
      lastMessage := None;
      updatedAt := None;
      unreadCounts := map[];
      messages := [];
    }

    /** The room document as a snapshot listener receives it. */
    function Doc(): RoomDoc
      reads this
    {
      RoomDoc(members, lastMessage, updatedAt, unreadCounts)
    }
  }

  datatype SendOutcome =
    | Skipped             // no room id or a missing user id: return at once
    | Rejected            // empty batch: reading `newMessages[0]` throws before the try
    | MessageWriteFailed  // the message write threw; the error is logged
    | RoomWriteFailed     // the message is stored, the room merge threw
    | Sent

  /** `onSend` for the room the hook resolved (`null` while it has no room
      id). Two sequential writes: first the message, then the room merge;
      failures are parameters standing for the store's exceptions. Each
      write's `serverTimestamp()` resolves to that write's own server time,
      `messageTime` and `roomTime`. */
  method OnSend(room: ChatRoom?, currentUserId: Option<string>, partnerUserId: Option<string>,
                batch: seq<OutgoingMessage>, docId: string, messageTime: int, roomTime: int,
                messageWriteOk: bool, roomWriteOk: bool) returns (outcome: SendOutcome)
    modifies room
    ensures room == null || !Truthy(currentUserId) || !Truthy(partnerUserId) <==> outcome == Skipped
    ensures outcome == Rejected <==> outcome != Skipped && batch == []
    ensures outcome in {Skipped, Rejected, MessageWriteFailed} ==> room == null || unchanged(room)
    ensures outcome in {RoomWriteFailed, Sent} ==>
              room != null && batch != [] &&
              room.messages == old(room.messages) + [NewMessageDoc(docId, batch[0], currentUserId.value, messageTime)]
    ensures outcome == RoomWriteFailed ==> room.Doc() == old(room.Doc())
    ensures outcome == Sent ==>
              room.Doc() == AfterSend(old(room.Doc()), currentUserId.value, partnerUserId.value, batch[0], roomTime)
    ensures outcome != Skipped && outcome != Rejected ==>
              (outcome == MessageWriteFailed <==> !messageWriteOk) &&
              (outcome == Sent <==> messageWriteOk && roomWriteOk)
  {
    if room == null || !Truthy(currentUserId) || !Truthy(partnerUserId) {
      return Skipped;
    }
    if batch == [] {
      return Rejected;
    }
    var m := batch[0];
    var c, p := currentUserId.value, partnerUserId.value;
    if !messageWriteOk {
      return MessageWriteFailed;
    }
    room.messages := room.messages + [NewMessageDoc(docId, m, c, messageTime)];
    if !roomWriteOk {
      return RoomWriteFailed;
    }
    room.members := SortedPair(c, p);
    room.lastMessage := Some(LastMessageText(m.text, m.image));
    room.updatedAt := Some(roomTime);
    room.unreadCounts := Incremented(room.unreadCounts, p);
    outcome := Sent;
  }

  /** `markAsRead`: zero the current user's counter in the room; without a
      room id or user id, or when the write throws, nothing changes. */
  method MarkAsRead(room: ChatRoom?, currentUserId: Option<string>, writeOk: bool)
    modifies room
    ensures room != null ==> room.messages == old(room.messages)
    ensures room != null && Truthy(currentUserId) && writeOk ==>
              room.Doc() == AfterRead(old(room.Doc()), currentUserId.value)
    ensures room != null && !(Truthy(currentUserId) && writeOk) ==> unchanged(room)
  {
    if room == null || !Truthy(currentUserId) {
      return;
    }
    if writeOk {
      room.unreadCounts := Zeroed(room.unreadCounts, currentUserId.value);
    }
  }

  /** The hook's own state: the derived room id and the published messages. */
  class ChatHook {
    var roomId: Option<string>
    var messages: seq<ChatMessage>

    constructor ()
      ensures roomId == None && messages == []
    {
      roomId := None;
      messages := [];
    }

    /** The room-id effect: it sets the id when both ids are truthy and
        otherwise returns early, keeping whatever id was there. */
    method IdsChanged(currentUserId: Option<string>, partnerUserId: Option<string>)
      modifies this`roomId
      ensures roomId == if Truthy(currentUserId) && Truthy(partnerUserId)
                        then RoomIdFor(currentUserId, partnerUserId) else old(roomId)
    {
      if !Truthy(currentUserId) || !Truthy(partnerUserId) {
        return;
      }
      roomId := Some(RoomId(currentUserId.value, partnerUserId.value));
    }

    /** The message listener publishes the mapped snapshot. */
    method OnMessagesSnapshot(docs: seq<StoredMessage>, now: int)
      modifies this`messages
      ensures messages == MapSnapshot(docs, now)
    {
      messages := MapSnapshot(docs, now);
    }
  }
}
