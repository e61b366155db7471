/** `usePushNotifications`: obtaining this device's push token, saving it
    to the user's document with `arrayUnion`, routing a tapped notification
    to a screen, and scheduling the daily reminder. The platform's answers
    (device or simulator, permission statuses, the token) are parameters. */
module Push {
  import opened Common
  import opened Documents
  import opened Triggers
  import Chat

  const HomePath: string := "/(tabs)/home"
  const ReminderTitle: string := "今日の記録はまだですか？"
  const ReminderBody: string := "5分だけ歩きませんか？記録して自分を肯定しましょう！"
  const ReminderHour: nat := 20
  const ReminderMinute: nat := 0

  /** The screen a tapped notification opens: a DM with a partner opens
      that conversation, a like or comment opens the home tab, anything else
      opens nothing. */
  function Route(data: Option<NotificationData>): (r: Option<string>)
    ensures data.Some? && data.value.kind == Some("dm") && Truthy(data.value.partnerId) ==>
              r == Some("/dm/" + data.value.partnerId.value)
    ensures data.Some? && (data.value.kind == Some("like") || data.value.kind == Some("comment")) ==>
              r == Some(HomePath)
    ensures data.None? || (data.value.kind == Some("dm") && !Truthy(data.value.partnerId)) ==> r.None?
    ensures r.Some? ==> data.Some? && data.value.kind in {Some("dm"), Some("like"), Some("comment")}
  {
    if data.None? then None
    else if data.value.kind == Some("dm") && Truthy(data.value.partnerId) then Some("/dm/" + data.value.partnerId.value)
    else if data.value.kind == Some("like") || data.value.kind == Some("comment") then Some(HomePath)
    else None
  }

  /** Tapping a message notification opens the DM with its sender. */
  lemma MessageNotificationOpensSenderDm(room: Option<Chat.RoomDoc>, senderId: Option<string>, senderDoc: Option<UserDoc>)
    requires OnNewMessage(room, senderId, senderDoc).Some?
    ensures Route(Some(OnNewMessage(room, senderId, senderDoc).value.data)) == Some("/dm/" + senderId.value)
  {
  }

  /** Tapping a like or comment notification opens the home tab. */
  lemma PostNotificationOpensHome(post: Option<TimelineDoc>, postId: string, actorId: Option<string>,
                                  name: Option<string>, text: Option<string>)
    ensures OnNewLike(post, postId, actorId, name).Some? ==>
              Route(Some(OnNewLike(post, postId, actorId, name).value.data)) == Some(HomePath)
    ensures OnNewComment(post, postId, actorId, name, text).Some? ==>
              Route(Some(OnNewComment(post, postId, actorId, name, text).value.data)) == Some(HomePath)
  {
  }

  datatype PermissionStatus = Granted | Denied | Undetermined

  /** `registerForPushNotificationsAsync`: no token on a simulator; on a
      device the permission is requested only when not already granted, and
      the token is fetched only when the final status is granted. */
  function RegisteredToken(isDevice: bool, existing: PermissionStatus, requested: PermissionStatus,
                           token: string): (r: Option<string>)
    ensures r.Some? <==> isDevice && (existing == Granted || requested == Granted)
    ensures r.Some? ==> r.value == token
  {
    if !isDevice then None
    else
      var final := if existing != Granted then requested else existing;
      if final != Granted then None else Some(token)
  }

  /** The user document after `updateDoc(userRef, {fcmTokens: arrayUnion(token)})`. */
  function TokenSaved(u: UserDoc, token: string): (r: UserDoc)
    ensures r.fcmTokens.Some? && token in r.fcmTokens.value
    ensures u.fcmTokens.Some? ==> forall t :: t in u.fcmTokens.value ==> t in r.fcmTokens.value
    ensures forall t :: t in r.fcmTokens.value ==> t == token || (u.fcmTokens.Some? && t in u.fcmTokens.value)
    ensures r.(fcmTokens := u.fcmTokens) == u
  {
    u.(fcmTokens := Some(ArrayUnion(u.fcmTokens, token)))
  }

  /** Saving the same token again leaves the document as it is. */
  lemma TokenSavedIdempotent(u: UserDoc, token: string)
    ensures TokenSaved(TokenSaved(u, token), token) == TokenSaved(u, token)
  {
    ArrayUnionIdempotent(u.fcmTokens, token);
  }

  /** Once a valid token is saved, every later notification to that user
      (with notifications not switched off) is pushed to it. */
  lemma SavedTokenReceivesPushes(users: map<string, UserDoc>, uid: string, token: string,
                                 n: Notification, isValid: string -> bool)
    requires uid != "" && uid in users && n.recipient == Some(uid)
    requires users[uid].notificationEnabled != Some(false) && isValid(token)
    ensures PushMessage(token, "default", n.title, n.body, n.data) in
              Outbox(users[uid := TokenSaved(users[uid], token)], n, isValid)
  {
    OutboxReachesEveryValidToken(users[uid := TokenSaved(users[uid], token)], n, isValid, token);
  }

  /** A scheduled local notification. */
  datatype ScheduledReminder = ScheduledReminder(title: string, body: string, sound: string,
                                                 hour: nat, minute: nat, repeats: bool)

  const DailyReminder: ScheduledReminder :=
    ScheduledReminder(ReminderTitle, ReminderBody, "default", ReminderHour, ReminderMinute, true)

  class PushHook {
    var expoPushToken: Option<string>
    /** The device's scheduled local notifications. */
    var scheduled: seq<ScheduledReminder>

    constructor (scheduled0: seq<ScheduledReminder>)
      ensures expoPushToken == Some("") && scheduled == scheduled0
    {
      expoPushToken := Some("");
      scheduled := scheduled0;
    }

    /** `saveTokenToFirestore`: the update fails, changing nothing, when the
        write throws or the user document does not exist; the error is only
        logged. */
    static method SaveTokenToFirestore(db: Firestore, uid: string, token: string, writeOk: bool)
      modifies db
      ensures db.reports == old(db.reports) && db.records == old(db.records) && db.timeline == old(db.timeline)
      ensures writeOk && uid in old(db.users) ==> db.users == old(db.users)[uid := TokenSaved(old(db.users)[uid], token)]
      ensures !(writeOk && uid in old(db.users)) ==> db.users == old(db.users)
    {
      if writeOk && uid in db.users {
        db.users := db.users[uid := TokenSaved(db.users[uid], token)];
      }
    }

    /** The registration callback: the token (possibly none) is kept, and it
        is saved only when both the user id and the token are truthy. */
    method OnRegistered(db: Firestore, userId: Option<string>, token: Option<string>, writeOk: bool)
      modifies this, db
      ensures expoPushToken == token && scheduled == old(scheduled)
      ensures db.reports == old(db.reports) && db.records == old(db.records) && db.timeline == old(db.timeline)
      ensures Truthy(userId) && Truthy(token) && writeOk && userId.value in old(db.users) ==>
                db.users == old(db.users)[userId.value := TokenSaved(old(db.users)[userId.value], token.value)]
      ensures !(Truthy(userId) && Truthy(token) && writeOk && userId.value in old(db.users)) ==>
                db.users == old(db.users)
    {
      expoPushToken := token;
      if Truthy(userId) && Truthy(token) {
        SaveTokenToFirestore(db, userId.value, token.value, writeOk);
      }
    }

    /** `scheduleDailyReminder`: everything scheduled is cancelled, then the
        20:00 repeating reminder is scheduled, so calling it again never
        stacks reminders. */
    method ScheduleDailyReminder()
      modifies this
      ensures scheduled == [DailyReminder] && expoPushToken == old(expoPushToken)
    {
      scheduled := [];
      scheduled := scheduled + [DailyReminder];
    }
  }
}
