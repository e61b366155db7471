/** The server-side notification triggers: `sendPushNotification` (the
    opt-out gate, one push message per valid token, chunked sending where a
    failed chunk does not stop the others) and the recipient and skip rules of
    `onNewMessage`, `onNewLike` and `onNewComment`. The token validity test of
    the push SDK is a parameter. */
module Triggers {
  import opened Common
  import opened Documents
  import opened Chat

  /** The `data` payload of a notification as the app receives it. */
  datatype NotificationData = NotificationData(kind: Option<string>, partnerId: Option<string>, postId: Option<string>)

  /** One push message: `{to, sound: "default", title, body, data}`. */
  datatype PushMessage = PushMessage(to: string, sound: string, title: string, body: string, data: NotificationData)

  /** The arguments a trigger passes to `sendPushNotification`. */
  datatype Notification = Notification(recipient: Option<string>, title: string, body: string, data: NotificationData)

  /** The push SDK's chunk size. */
  const ChunkSize: nat := 100

  // ---------------------------------------------------------------------
  // sendPushNotification
  // ---------------------------------------------------------------------

  /** The tokens that pass `isValid`, in their order. */
  function ValidTokens(tokens: seq<string>, isValid: string -> bool): (v: seq<string>)
    ensures |v| <= |tokens| && IsSubsequence(v, tokens)
    ensures forall t :: t in v <==> t in tokens && isValid(t)
  {
    if tokens == [] then []
    else
      var rest := ValidTokens(tokens[1..], isValid);
      assert tokens == [tokens[0]] + tokens[1..];
      if isValid(tokens[0]) then
        assert ([tokens[0]] + rest)[1..] == rest;
        [tokens[0]] + rest
      else
        SubsequenceOfTail(rest, tokens);
        rest
  }

  /** One message per token that passes `isValid`, in token order. */
  function TokenMessages(tokens: seq<string>, n: Notification, isValid: string -> bool): (r: seq<PushMessage>)
    ensures |r| <= |tokens|
    ensures forall m :: m in r ==> m.to in tokens && isValid(m.to) &&
                                    m == PushMessage(m.to, "default", n.title, n.body, n.data)
    ensures forall t :: t in tokens && isValid(t) ==> PushMessage(t, "default", n.title, n.body, n.data) in r
  {
    if tokens == [] then []
    else
      var rest := TokenMessages(tokens[1..], n, isValid);
      if isValid(tokens[0]) then [PushMessage(tokens[0], "default", n.title, n.body, n.data)] + rest else rest
  }

  /** The messages follow the token order: the i-th message goes to the i-th
      valid token. */
  lemma {:induction false} TokenMessagesInOrder(tokens: seq<string>, n: Notification, isValid: string -> bool)
    ensures var r, v := TokenMessages(tokens, n, isValid), ValidTokens(tokens, isValid);
            |r| == |v| && forall i :: 0 <= i < |r| ==> r[i] == PushMessage(v[i], "default", n.title, n.body, n.data)
  {
    if tokens != [] {
      TokenMessagesInOrder(tokens[1..], n, isValid);
      var rest := TokenMessages(tokens[1..], n, isValid);
      if isValid(tokens[0]) {
        var r := TokenMessages(tokens, n, isValid);
        assert forall i :: 1 <= i < |r| ==> r[i] == rest[i - 1];
      }
    }
  }

  /** The number of messages is the number of valid tokens. */
  function ValidCount(tokens: seq<string>, isValid: string -> bool): nat {
    if tokens == [] then 0 else (if isValid(tokens[0]) then 1 else 0) + ValidCount(tokens[1..], isValid)
  }

  lemma {:induction false} TokenMessagesCount(tokens: seq<string>, n: Notification, isValid: string -> bool)
    ensures |TokenMessages(tokens, n, isValid)| == ValidCount(tokens, isValid)
    ensures ValidCount(tokens, isValid) == |tokens| ==> |TokenMessages(tokens, n, isValid)| == |tokens|
  {
    if tokens != [] {
      TokenMessagesCount(tokens[1..], n, isValid);
    }
  }

  /** Unfolding `TokenMessages` at position `i`. */
  lemma TokenMessagesStep(tokens: seq<string>, i: nat, n: Notification, isValid: string -> bool)
    requires i < |tokens|
    ensures TokenMessages(tokens[i..], n, isValid) ==
            (if isValid(tokens[i]) then [PushMessage(tokens[i], "default", n.title, n.body, n.data)] else []) +
            TokenMessages(tokens[i + 1..], n, isValid)
  {
    assert tokens[i..][1..] == tokens[i + 1..];
  }

  /** The `for (const token of tokens)` loop: skip invalid tokens, push a
      message for each valid one. */
  method BuildMessages(tokens: seq<string>, n: Notification, isValid: string -> bool) returns (messages: seq<PushMessage>)
    ensures messages == TokenMessages(tokens, n, isValid)
  {
    messages := [];
    var i := 0;
    assert tokens[0..] == tokens;
    while i < |tokens|
      invariant 0 <= i <= |tokens|
      invariant messages + TokenMessages(tokens[i..], n, isValid) == TokenMessages(tokens, n, isValid)
    {
      TokenMessagesStep(tokens, i, n, isValid);
      ghost var rest := TokenMessages(tokens[i + 1..], n, isValid);
      var head := if isValid(tokens[i]) then [PushMessage(tokens[i], "default", n.title, n.body, n.data)] else [];
      assert (messages + head) + rest == messages + (head + rest);
      messages := messages + head;
      i := i + 1;
    }
    assert tokens[|tokens|..] == [];
  }

  /** The messages `sendPushNotification` builds for a recipient: none when
      the recipient id is falsy (looking it up throws), when the user
      document is missing, or when the user turned notifications off
      (exactly `false`; an absent setting still sends). */
  function Outbox(users: map<string, UserDoc>, n: Notification, isValid: string -> bool): (r: seq<PushMessage>)
    ensures !Truthy(n.recipient) || n.recipient.value !in users ==> r == []
    ensures Truthy(n.recipient) && n.recipient.value in users && users[n.recipient.value].notificationEnabled == Some(false) ==> r == []
    ensures forall m :: m in r ==>
              Truthy(n.recipient) && n.recipient.value in users &&
              users[n.recipient.value].notificationEnabled != Some(false) &&
              users[n.recipient.value].fcmTokens.Some? && m.to in users[n.recipient.value].fcmTokens.value &&
              isValid(m.to) && m == PushMessage(m.to, "default", n.title, n.body, n.data)
  {
    if !Truthy(n.recipient) || n.recipient.value !in users then []
    else
      var u := users[n.recipient.value];
      if u.notificationEnabled == Some(false) then []
      else TokenMessages(if u.fcmTokens.Some? then u.fcmTokens.value else [], n, isValid)
  }

  /** Every valid token of a user who has not opted out gets the message. */
  lemma OutboxReachesEveryValidToken(users: map<string, UserDoc>, n: Notification, isValid: string -> bool, t: string)
    requires Truthy(n.recipient) && n.recipient.value in users
    requires users[n.recipient.value].notificationEnabled != Some(false)
    requires users[n.recipient.value].fcmTokens.Some? && t in users[n.recipient.value].fcmTokens.value && isValid(t)
    ensures PushMessage(t, "default", n.title, n.body, n.data) in Outbox(users, n, isValid)
  {
  }

  /** `chunkPushNotifications`: consecutive slices of at most `ChunkSize`. */
  function Chunks(messages: seq<PushMessage>): (r: seq<seq<PushMessage>>)
    ensures forall c :: c in r ==> 0 < |c| <= ChunkSize
    decreases |messages|
  {
    if messages == [] then []
    else if |messages| <= ChunkSize then [messages]
    else [messages[..ChunkSize]] + Chunks(messages[ChunkSize..])
  }

  function Flatten(chunks: seq<seq<PushMessage>>): seq<PushMessage> {
    if chunks == [] then [] else chunks[0] + Flatten(chunks[1..])
  }

  /** The chunks partition the messages: nothing lost, nothing reordered. */
  lemma {:induction false} ChunksPartition(messages: seq<PushMessage>)
    ensures Flatten(Chunks(messages)) == messages
    decreases |messages|
  {
    if |messages| > ChunkSize {
      ChunksPartition(messages[ChunkSize..]);
      var c := Chunks(messages);
      assert c[0] == messages[..ChunkSize] && c[1..] == Chunks(messages[ChunkSize..]);
      assert messages[..ChunkSize] + messages[ChunkSize..] == messages;
    } else if messages != [] {
      assert Chunks(messages) == [messages];
      assert Flatten([messages]) == messages + Flatten([]);
    }
  }

  /** What reaches the push service when the chunks whose index (counted
      from `from`) is in `failing` throw: every other chunk, in order. */
  function Delivered(chunks: seq<seq<PushMessage>>, failing: set<nat>, from: nat): seq<PushMessage>
    decreases |chunks|
  {
    if chunks == [] then []
    else (if from in failing then [] else chunks[0]) + Delivered(chunks[1..], failing, from + 1)
  }

  /** A failing chunk does not stop the chunks after it. */
  lemma {:induction false} FailedChunkDoesNotStopOthers(chunks: seq<seq<PushMessage>>, failing: set<nat>, from: nat, i: nat, m: PushMessage)
    requires i < |chunks| && from + i !in failing && m in chunks[i]
    ensures m in Delivered(chunks, failing, from)
    decreases i
  {
    if i > 0 {
      FailedChunkDoesNotStopOthers(chunks[1..], failing, from + 1, i - 1, m);
    }
  }

  /** With no failing chunk, everything is delivered. */
  lemma {:induction false} NoFailureDeliversAll(chunks: seq<seq<PushMessage>>, from: nat)
    ensures Delivered(chunks, {}, from) == Flatten(chunks)
  {
    if chunks != [] {
      NoFailureDeliversAll(chunks[1..], from + 1);
    }
  }

  /** The `for (const chunk of chunks)` loop: each send is tried; a throwing
      one is logged and the loop goes on. */
  method SendChunks(chunks: seq<seq<PushMessage>>, failing: set<nat>) returns (delivered: seq<PushMessage>)
    ensures delivered == Delivered(chunks, failing, 0)
  {
    delivered := [];
    var i := 0;
    while i < |chunks|
      invariant 0 <= i <= |chunks|
      invariant delivered + Delivered(chunks[i..], failing, i) == Delivered(chunks, failing, 0)
    {
      assert chunks[i..][1..] == chunks[i + 1..];
      if i !in failing {
        delivered := delivered + chunks[i];
      }
      i := i + 1;
    }
  }

  /** `sendPushNotification`: gate, build, chunk, send. Returns what reached
      the push service; without failures that is the whole outbox. */
  method SendPushNotification(users: map<string, UserDoc>, n: Notification, isValid: string -> bool, failing: set<nat>)
    returns (delivered: seq<PushMessage>)
    ensures delivered == Delivered(Chunks(Outbox(users, n, isValid)), failing, 0)
    ensures failing == {} ==> delivered == Outbox(users, n, isValid)
  {
    var outbox: seq<PushMessage> := [];
    if Truthy(n.recipient) && n.recipient.value in users {
      var u := users[n.recipient.value];
      if u.notificationEnabled != Some(false) {
        outbox := BuildMessages(if u.fcmTokens.Some? then u.fcmTokens.value else [], n, isValid);
      }
    }
    delivered := SendChunks(Chunks(outbox), failing);
    NoFailureDeliversAll(Chunks(outbox), 0);
    ChunksPartition(outbox);
  }

  // ---------------------------------------------------------------------
  // The three triggers
  // ---------------------------------------------------------------------

  /** `members.find(uid => uid !== senderId)`. */
  function FirstOther(members: seq<string>, senderId: Option<string>): (r: Option<string>)
    ensures r.Some? ==> r.value in members && Some(r.value) != senderId
    ensures r.None? <==> forall m :: m in members ==> Some(m) == senderId
    ensures members != [] && Some(members[0]) != senderId ==> r == Some(members[0])
    ensures r.Some? ==> exists i :: 0 <= i < |members| && members[i] == r.value &&
                                    forall j :: 0 <= j < i ==> Some(members[j]) == senderId
  {
    if members == [] then None
    else if Some(members[0]) != senderId then
      assert members[0] == members[0];
      Some(members[0])
    else
      var r := FirstOther(members[1..], senderId);
      if r.Some? then
        var i :| 0 <= i < |members[1..]| && members[1..][i] == r.value &&
                 forall j :: 0 <= j < i ==> Some(members[1..][j]) == senderId;
        assert members[i + 1] == r.value;
        assert forall j :: 0 <= j < i + 1 ==> Some(members[j]) == senderId by {
          forall j | 0 <= j < i + 1 ensures Some(members[j]) == senderId {
            if j > 0 { assert members[j] == members[1..][j - 1]; }
          }
        }
        r
      else r
  }

  /** `onNewMessage`: no room, no recipient other than the sender, or no
      usable sender id (its user lookup throws) means no notification. */
  function OnNewMessage(room: Option<RoomDoc>, senderId: Option<string>, senderDoc: Option<UserDoc>): (r: Option<Notification>)
    ensures r.Some? <==> room.Some? && Truthy(senderId) && Truthy(FirstOther(room.value.members, senderId))
    ensures r.Some? ==> r.value.recipient == FirstOther(room.value.members, senderId)
    ensures r.Some? ==> Truthy(r.value.recipient) && r.value.recipient != senderId &&
                        r.value.recipient.value in room.value.members &&
                        r.value.title == "新着メッセージ" &&
                        r.value.body == StrOr(if senderDoc.Some? then senderDoc.value.username else None, "誰か") +
                                        "さんからメッセージが届きました" &&
                        r.value.data == NotificationData(Some("dm"), senderId, None)
  {
    if room.None? || !Truthy(senderId) then None
    else
      var recipient := FirstOther(room.value.members, senderId);
      if !Truthy(recipient) then None
      else
        var name := StrOr(if senderDoc.Some? then senderDoc.value.username else None, "誰か");
        Some(Notification(recipient, "新着メッセージ", name + "さんからメッセージが届きました",
                          NotificationData(Some("dm"), senderId, None)))
  }

  /** In a room written by `onSend` between two different users, a message
      from one notifies the other. The trigger is assumed to read the room
      after `onSend`'s merge has landed; for the first message of a new room
      it may run before the merge, find no room and send nothing. */
  lemma DmNotifiesPartner(d: RoomDoc, c: string, p: string, m: OutgoingMessage, t: int, senderDoc: Option<UserDoc>)
    requires c != p && c != "" && p != ""
    ensures OnNewMessage(Some(AfterSend(d, c, p, m, t)), Some(c), senderDoc).Some?
    ensures OnNewMessage(Some(AfterSend(d, c, p, m, t)), Some(c), senderDoc).value.recipient == Some(p)
  {
    var members := AfterSend(d, c, p, m, t).members;
    assert members == [c, p] || members == [p, c];
    assert members[1..] == [members[1]];
  }

  /** `onNewLike` / `onNewComment`: no post, or an actor equal to the post's
      `userId` (both may be missing), means no notification. The name is
      interpolated as is, so a missing one reads "undefined". */
  function OnPostActivity(post: Option<TimelineDoc>, postId: string, actorId: Option<string>,
                          title: string, body: string, kind: string): (r: Option<Notification>)
    ensures r.Some? <==> post.Some? && post.value.userId != actorId
    ensures post.Some? && post.value.userId != actorId ==>
              r == Some(Notification(post.value.userId, title, body, NotificationData(Some(kind), None, Some(postId))))
  {
    if post.None? || post.value.userId == actorId then None
    else Some(Notification(post.value.userId, title, body, NotificationData(Some(kind), None, Some(postId))))
  }

  function Interpolated(x: Option<string>): string {
    if x.Some? then x.value else "undefined"
  }

  /** `onNewLike`: the post's `userId` is told who liked it, unless that is
      the liker. */
  function OnNewLike(post: Option<TimelineDoc>, postId: string, fromUserId: Option<string>, fromUserName: Option<string>): (r: Option<Notification>)
    ensures r.Some? <==> post.Some? && post.value.userId != fromUserId
    ensures r.Some? ==> r.value.recipient == post.value.userId && r.value.title == "えらい！" &&
                        r.value.body == Interpolated(fromUserName) + "さんがあなたの記録を承認しました" &&
                        r.value.data == NotificationData(Some("like"), None, Some(postId))
  {
    OnPostActivity(post, postId, fromUserId, "えらい！",
                   Interpolated(fromUserName) + "さんがあなたの記録を承認しました", "like")
  }

  /** `onNewComment`: the post's `userId` is told who commented and what,
      unless that is the commenter. */
  function OnNewComment(post: Option<TimelineDoc>, postId: string, userId: Option<string>,
                        username: Option<string>, text: Option<string>): (r: Option<Notification>)
    ensures r.Some? <==> post.Some? && post.value.userId != userId
    ensures r.Some? ==> r.value.recipient == post.value.userId && r.value.title == "コメント" &&
                        r.value.body == Interpolated(username) + "さんがコメントしました: " + Interpolated(text) &&
                        r.value.data == NotificationData(Some("comment"), None, Some(postId))
  {
    OnPostActivity(post, postId, userId, "コメント",
                   Interpolated(username) + "さんがコメントしました: " + Interpolated(text), "comment")
  }

  /** Liking or commenting on one's own post notifies nobody. */
  lemma NoSelfNotification(post: TimelineDoc, postId: string, actor: string, name: Option<string>, text: Option<string>)
    requires post.userId == Some(actor)
    ensures OnNewLike(Some(post), postId, Some(actor), name).None?
    ensures OnNewComment(Some(post), postId, Some(actor), name, text).None?
  {
  }

  /** A like or comment on someone else's post reaches every valid token of
      the post's owner, unless the owner switched notifications off. */
  lemma {:induction false} ActivityReachesOwner(users: map<string, UserDoc>, post: TimelineDoc, postId: string,
                                                 actor: Option<string>, name: Option<string>, text: Option<string>,
                                                 isValid: string -> bool, token: string)
    requires Truthy(post.userId) && post.userId != actor && post.userId.value in users
    requires users[post.userId.value].notificationEnabled != Some(false)
    requires users[post.userId.value].fcmTokens.Some? && token in users[post.userId.value].fcmTokens.value
    requires isValid(token)
    ensures OnNewLike(Some(post), postId, actor, name).Some? && OnNewComment(Some(post), postId, actor, name, text).Some?
    ensures var n := OnNewLike(Some(post), postId, actor, name).value;
            PushMessage(token, "default", n.title, n.body, n.data) in Outbox(users, n, isValid)
    ensures var n := OnNewComment(Some(post), postId, actor, name, text).value;
            PushMessage(token, "default", n.title, n.body, n.data) in Outbox(users, n, isValid)
  {
    OutboxReachesEveryValidToken(users, OnNewLike(Some(post), postId, actor, name).value, isValid, token);
    OutboxReachesEveryValidToken(users, OnNewComment(Some(post), postId, actor, name, text).value, isValid, token);
  }

  /** A post without `userId` (the record flow writes `uid` instead) yields
      a notification with no recipient, which sends nothing. */
  lemma PostWithoutOwnerNotifiesNobody(users: map<string, UserDoc>, post: TimelineDoc, postId: string,
                                       actor: string, name: Option<string>, isValid: string -> bool)
    requires post.userId.None?
    ensures OnNewLike(Some(post), postId, Some(actor), name).Some?
    ensures Outbox(users, OnNewLike(Some(post), postId, Some(actor), name).value, isValid) == []
  {
  }
}
