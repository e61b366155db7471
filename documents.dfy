/** The shapes of the documents the app keeps in its document store, and the
    store itself as an in-memory object: the `users`, `reports`, `records`
    and `timeline` collections. Chat rooms live in their own class (module
    Chat). Fields the source may leave out of a document are `Option`s. */
module Documents {
  import opened Common

  /** A document of the `users` collection. `notificationEnabled` is the
      nested `settings.notificationEnabled` field. */
  datatype UserDoc = UserDoc(
    username: Option<string>,
    weight: Option<int>,
    height: Option<int>,
    profileImageUrl: Option<string>,
    bio: Option<string>,
    blockedUsers: Option<seq<string>>,
    fcmTokens: Option<seq<string>>,
    notificationEnabled: Option<bool>)

  /** The signed-in account as the authentication service reports it. */
  datatype AuthUser = AuthUser(uid: string, email: Option<string>, displayName: Option<string>, photoURL: Option<string>)

  /** What a report is about: `'post' | 'user' | 'dm'`. */
  datatype TargetKind = PostTarget | UserTarget | DmTarget

  /** A document of the `reports` collection. */
  datatype Report = Report(reporterId: string, targetId: string, kind: TargetKind, reason: string, createdAt: int)

  /** A JavaScript number as `Number(s)` yields it: a value, or NaN. */
  datatype JsNumber = Finite(n: int) | NaN

  datatype Mets = Mets(low: int, mid: int, high: int)

  /** One activity as `saveRecord` stores it. */
  datatype SavedActivity = SavedActivity(
    name: string, kind: string, intensity: string,
    duration: int, steps: int, mets: int, baseMets: Mets)

  /** A document of the `records` collection. */
  datatype RecordDoc = RecordDoc(
    uid: string,
    activities: seq<SavedActivity>,
    weight: Option<JsNumber>,
    comment: string,
    imageUrls: seq<string>,
    imageUrl: Option<string>,
    createdAt: int)

  /** A document of the `timeline` collection with its document id. Posts
      come from several writers, so every field may be missing; `kind` is the
      document's `type` field. */
  datatype TimelineDoc = TimelineDoc(
    id: string,
    userId: Option<string>,
    uid: Option<string>,
    groupId: Option<string>,
    username: Option<string>,
    profileImageUrl: Option<string>,
    userIcon: Option<string>,
    text: Option<string>,
    comment: Option<string>,
    imageUrls: Option<seq<string>>,
    imageUrl: Option<string>,
    likes: Option<int>,
    comments: Option<int>,
    activities: Option<seq<SavedActivity>>,
    weight: Option<JsNumber>,
    recordId: Option<string>,
    kind: Option<string>,
    createdAt: Option<int>)

  /** The document store, with one field per collection. */
  class Firestore {
    var users: map<string, UserDoc>
    var reports: seq<Report>
    var records: map<string, RecordDoc>
    var timeline: seq<TimelineDoc>

    constructor (users0: map<string, UserDoc>)
      ensures users == users0 && reports == [] && records == map[] && timeline == []
    {
      users := users0;
      reports := [];
      records := map[];
      timeline := [];
    }
  }
}
