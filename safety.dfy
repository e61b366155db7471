/** The safety actions of `useSafety`: reporting appends a record to the
    `reports` collection; blocking adds the target to the signed-in user's
    `blockedUsers` array with `arrayUnion`, after a confirmation dialog. Both
    keep a `loading` flag that is cleared when the action ends. */
module Safety {
  import opened Common
  import opened Documents

  const DefaultReason: string := "Inappropriate content"

  /** The `reason` parameter: its default replaces only a missing argument. */
  function ReportReason(reason: Option<string>): (r: string)
    ensures reason.Some? ==> r == reason.value
    ensures reason.None? ==> r == DefaultReason
  {
    if reason.Some? then reason.value else DefaultReason
  }

  /** The user document after `updateDoc(userRef, {blockedUsers: arrayUnion(target)})`. */
  function Blocked(u: UserDoc, target: string): (r: UserDoc)
    ensures r.blockedUsers.Some? && target in r.blockedUsers.value
    ensures u.blockedUsers.Some? ==> forall x :: x in u.blockedUsers.value ==> x in r.blockedUsers.value
    ensures forall x :: x in r.blockedUsers.value ==> x == target || (u.blockedUsers.Some? && x in u.blockedUsers.value)
    ensures r.(blockedUsers := u.blockedUsers) == u
  {
    u.(blockedUsers := Some(ArrayUnion(u.blockedUsers, target)))
  }

  /** Blocking the same user twice gives the same document as blocking once,
      and blocking someone already blocked changes nothing. */
  lemma BlockIdempotent(u: UserDoc, target: string)
    ensures Blocked(Blocked(u, target), target) == Blocked(u, target)
    ensures u.blockedUsers.Some? && target in u.blockedUsers.value ==> Blocked(u, target) == u
  {
  }

  /** The button chosen in the confirmation dialog. */
  datatype Choice = Cancel | Confirm

  class SafetyHook {
    var loading: bool

    constructor ()
      ensures !loading
    {
      loading := false;
    }

    /** `reportContent`: without a signed-in uid nothing happens; otherwise
        one report is appended when the write succeeds (no deduplication),
        and `loading` ends false either way. */
    method ReportContent(db: Firestore, uid: Option<string>, targetId: string, kind: TargetKind,
                         reason: Option<string>, serverTime: int, writeOk: bool)
      modifies this, db
      ensures !Truthy(uid) ==> unchanged(this) && unchanged(db)
      ensures Truthy(uid) ==> !loading
      ensures db.users == old(db.users) && db.records == old(db.records) && db.timeline == old(db.timeline)
      ensures Truthy(uid) && writeOk ==>
                db.reports == old(db.reports) + [Report(uid.value, targetId, kind, ReportReason(reason), serverTime)]
      ensures !writeOk ==> db.reports == old(db.reports)
    {
      if !Truthy(uid) {
        return;
      }
      loading := true;
      if writeOk {
        db.reports := db.reports + [Report(uid.value, targetId, kind, ReportReason(reason), serverTime)];
      }
      loading := false;
    }

    /** `blockUser`: without a signed-in uid, or when the dialog is
        cancelled, nothing happens. On confirmation the target is added to
        the user's blocklist; the update fails (and changes nothing) when the
        write throws or the user document does not exist. `loading` ends
        false either way. */
    method BlockUser(db: Firestore, uid: Option<string>, target: string, choice: Choice, writeOk: bool)
      modifies this, db
      ensures !Truthy(uid) || choice == Cancel ==> unchanged(this) && unchanged(db)
      ensures Truthy(uid) && choice == Confirm ==> !loading
      ensures db.reports == old(db.reports) && db.records == old(db.records) && db.timeline == old(db.timeline)
      ensures Truthy(uid) && choice == Confirm && writeOk && uid.value in old(db.users) ==>
                db.users == old(db.users)[uid.value := Blocked(old(db.users)[uid.value], target)]
      ensures !(Truthy(uid) && choice == Confirm && writeOk && uid.value in old(db.users)) ==>
                db.users == old(db.users)
    {
      if !Truthy(uid) || choice == Cancel {
        return;
      }
      loading := true;
      var me := uid.value;
      if writeOk && me in db.users {
        db.users := db.users[me := Blocked(db.users[me], target)];
      }
      loading := false;
    }
  }
}
