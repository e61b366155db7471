/** `useRecordSaver`: uploading the form's images, turning the form into a
    `records` document, writing it, and (when asked) writing a `timeline`
    post built from the same data. A `saving` flag is set for the duration.
    The storage upload and `Number(...)` are parameters: `upload(uri, i)` is
    the download URL of the i-th upload or `None` when it fails, and
    `parse(s)` is `Number(s)` as a whole number or `None` for NaN. */
module RecordSaver {
  import opened Common
  import opened Documents
  import opened RecordForm
  import Feed

  const DefaultKind: string := "other"
  const DefaultUsername: string := "ユーザー"
  const RecordPostKind: string := "record"

  /** `Number(v) || 0` for a form field: NaN and a missing field give 0. */
  function ToNumber(v: FieldValue, parse: string -> Option<int>): (n: int)
    ensures v.NumberValue? ==> n == v.n
    ensures v.TextValue? && parse(v.s).Some? ==> n == parse(v.s).value
    ensures v.Missing? || (v.TextValue? && parse(v.s).None?) ==> n == 0
  {
    match v
    case NumberValue(x) => x
    case TextValue(s) => if parse(s).Some? then parse(s).value else 0
    case Missing => 0
  }

  /** One activity as stored: no field is left undefined, a falsy type
      becomes `"other"`, a falsy intensity `"中"`. */
  function Sanitize(a: FormActivity, parse: string -> Option<int>): (s: SavedActivity)
    ensures s.name == a.name && s.mets == a.mets && s.baseMets == a.baseMets
    ensures s.kind == StrOr(a.kind, DefaultKind) && s.kind != ""
    ensures s.intensity == (if a.intensity != "" then a.intensity else MidIntensity) && s.intensity != ""
    ensures s.duration == ToNumber(a.duration, parse) && s.steps == ToNumber(a.steps, parse)
  {
    SavedActivity(a.name, StrOr(a.kind, DefaultKind), StrOr(Some(a.intensity), MidIntensity),
                  ToNumber(a.duration, parse), ToNumber(a.steps, parse), a.mets, a.baseMets)
  }

  function SanitizeAll(acts: seq<FormActivity>, parse: string -> Option<int>): (r: seq<SavedActivity>)
    ensures |r| == |acts|
    ensures forall i :: 0 <= i < |acts| ==> r[i] == Sanitize(acts[i], parse)
  {
    seq(|acts|, i requires 0 <= i < |acts| => Sanitize(acts[i], parse))
  }

  /** An activity whose METs value matched its intensity in the form still
      does once stored. */
  lemma SavedMetsMatchIntensity(acts: seq<FormActivity>, parse: string -> Option<int>)
    requires AllMetsMatch(acts)
    ensures forall s :: s in SanitizeAll(acts, parse) ==> s.mets == MetsFor(s.baseMets, s.intensity)
  {
    var r := SanitizeAll(acts, parse);
    forall s | s in r
      ensures s.mets == MetsFor(s.baseMets, s.intensity)
    {
      var i :| 0 <= i < |r| && r[i] == s;
      assert MetsMatchIntensity(acts[i]);
    }
  }

  /** `weight ? Number(weight) : null`. */
  function WeightValue(weight: string, parse: string -> Option<int>): (w: Option<JsNumber>)
    ensures weight == "" <==> w.None?
    ensures weight != "" && parse(weight).Some? ==> w == Some(Finite(parse(weight).value))
    ensures weight != "" && parse(weight).None? ==> w == Some(NaN)
  {
    if weight == "" then None
    else if parse(weight).Some? then Some(Finite(parse(weight).value))
    else Some(NaN)
  }

  /** `Promise.all` over the uploads of `uris[from..]`, the i-th upload
      being given its index: every URL in order, or `None` as soon as any
      upload fails. */
  function UploadFrom(uris: seq<string>, from: nat, upload: (string, nat) -> Option<string>): (r: Option<seq<string>>)
    requires from <= |uris|
    ensures r.Some? <==> forall i :: from <= i < |uris| ==> upload(uris[i], i).Some?
    ensures r.Some? ==> |r.value| == |uris| - from &&
                        forall i :: from <= i < |uris| ==> upload(uris[i], i) == Some(r.value[i - from])
    decreases |uris| - from
  {
    if from == |uris| then Some([])
    else
      var head := upload(uris[from], from);
      var rest := UploadFrom(uris, from + 1, upload);
      if head.None? || rest.None? then None
      else Some([head.value] + rest.value)
  }

  /** The URLs of all images, or `None` when one upload fails. */
  function UploadAll(uris: seq<string>, upload: (string, nat) -> Option<string>): (r: Option<seq<string>>)
    ensures r.Some? <==> forall i :: 0 <= i < |uris| ==> upload(uris[i], i).Some?
    ensures r.Some? ==> |r.value| == |uris| && forall i :: 0 <= i < |uris| ==> upload(uris[i], i) == Some(r.value[i])
  {
    UploadFrom(uris, 0, upload)
  }

  /** The `records` document: the form's data sanitised, the uploaded URLs,
      and the first URL (or null) kept for older readers. */
  function BuildRecord(uid: string, f: FormData, urls: seq<string>, parse: string -> Option<int>, serverTime: int): (r: RecordDoc)
    ensures r.uid == uid && r.createdAt == serverTime && r.comment == f.comment
    ensures r.activities == SanitizeAll(f.activities, parse)
    ensures r.weight == WeightValue(f.weight, parse)
    ensures r.imageUrls == urls
    ensures r.imageUrl.Some? <==> |urls| > 0
    ensures r.imageUrl.Some? ==> r.imageUrl.value == urls[0]
  {
    RecordDoc(uid, SanitizeAll(f.activities, parse), WeightValue(f.weight, parse), f.comment,
              urls, if |urls| > 0 then Some(urls[0]) else None, serverTime)
  }

  /** The `timeline` post: the record's fields, a link to the record, the
      author's display name (or `"ユーザー"`) and photo, zero likes and
      comments, and type `"record"`. The author is in `uid`; `userId` is not
      set. The copied `serverTimestamp()` sentinel resolves at this second
      write, to `postTime`. */
  function RecordPost(postId: string, record: RecordDoc, recordId: string, user: AuthUser, postTime: int): (p: TimelineDoc)
    ensures p.id == postId && p.recordId == Some(recordId) && p.kind == Some(RecordPostKind)
    ensures p.uid == Some(record.uid) && p.userId.None? && p.groupId.None?
    ensures p.comment == Some(record.comment) && p.text.None?
    ensures p.imageUrls == Some(record.imageUrls) && p.imageUrl == record.imageUrl
    ensures p.activities == Some(record.activities) && p.weight == record.weight
    ensures p.createdAt == Some(postTime)
    ensures p.username == Some(StrOr(user.displayName, DefaultUsername)) && p.userIcon == NonEmpty(user.photoURL)
    ensures p.likes == Some(0) && p.comments == Some(0)
  {
    TimelineDoc(postId, None, Some(record.uid), None, Some(StrOr(user.displayName, DefaultUsername)),
                None, NonEmpty(user.photoURL), None, Some(record.comment), Some(record.imageUrls),
                record.imageUrl, Some(0), Some(0), Some(record.activities), record.weight,
                Some(recordId), Some(RecordPostKind), Some(postTime))
  }

  /** A post written by the record flow reaches every viewer's feed, even a
      viewer who blocked its author: the blocklist filter reads `userId`. */
  lemma RecordPostIgnoresBlocklist(posts: seq<TimelineDoc>, postId: string, record: RecordDoc,
                                   recordId: string, user: AuthUser, postTime: int, blocked: seq<string>)
    requires RecordPost(postId, record, recordId, user, postTime) in posts
    ensures RecordPost(postId, record, recordId, user, postTime) in Feed.VisibleFeed(posts, blocked)
  {
    Feed.PostsWithoutUserIdKept(posts, blocked, RecordPost(postId, record, recordId, user, postTime));
  }

  /** How a call to `saveRecord` ended. */
  datatype SaveOutcome = NotSignedIn | UploadFailed | RecordWriteFailed | TimelineWriteFailed | Saved

  class RecordSaverHook {
    var saving: bool

    constructor ()
      ensures !saving
    {
      saving := false;
    }

    /** `saveRecord`: without a signed-in user nothing happens. Otherwise a
        failed upload writes nothing; then the record is written; then, when
        `postToTimeline` is set, the post. Each failure stops what follows,
        and `saving` ends false in every signed-in case. The two writes'
        server times are `recordTime` and `postTime`. */
    method SaveRecord(db: Firestore, currentUser: Option<AuthUser>, f: FormData,
                      upload: (string, nat) -> Option<string>, parse: string -> Option<int>,
                      recordTime: int, postTime: int, recordId: string, postId: string,
                      recordWriteOk: bool, timelineWriteOk: bool) returns (outcome: SaveOutcome)
      requires recordId !in db.records
      modifies this, db
      ensures currentUser.None? ==> outcome == NotSignedIn && unchanged(this) && unchanged(db)
      ensures currentUser.Some? ==> !saving
      ensures db.users == old(db.users) && db.reports == old(db.reports)
      ensures var urls := UploadAll(f.imageUris, upload);
              currentUser.Some? && urls.Some? && recordWriteOk ==>
                var record := BuildRecord(currentUser.value.uid, f, urls.value, parse, recordTime);
                db.records == old(db.records)[recordId := record] &&
                db.timeline == old(db.timeline) +
                  (if f.postToTimeline && timelineWriteOk then [RecordPost(postId, record, recordId, currentUser.value, postTime)] else [])
      ensures UploadAll(f.imageUris, upload).None? || !recordWriteOk ==>
                db.records == old(db.records) && db.timeline == old(db.timeline)
      ensures outcome == Saved <==>
                (currentUser.Some? && UploadAll(f.imageUris, upload).Some? && recordWriteOk &&
                 (f.postToTimeline ==> timelineWriteOk))
    {
      if currentUser.None? {
        return NotSignedIn;
      }
      saving := true;
      var user := currentUser.value;
      var urls := UploadAll(f.imageUris, upload);
      if urls.None? {
        saving := false;
        return UploadFailed;
      }
      if !recordWriteOk {
        saving := false;
        return RecordWriteFailed;
      }
      var record := BuildRecord(user.uid, f, urls.value, parse, recordTime);
      db.records := db.records[recordId := record];
      outcome := Saved;
      if f.postToTimeline {
        if timelineWriteOk {
          db.timeline := db.timeline + [RecordPost(postId, record, recordId, user, postTime)];
        } else {
          outcome := TimelineWriteFailed;
        }
      }
      saving := false;
    }
  }
}
