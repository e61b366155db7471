/** `useAuth`: the signed-in account, the profile built from the account's
    `users` document (kept live by a listener), and a `loading` flag. The
    profile's `blockedUsers` is the blocklist every feed filters with. */
module Auth {
  import opened Common
  import opened Documents
  import Feed
  import Safety

  const DefaultUsername: string := "名無しさん"
  const GuestUsername: string := "ゲスト"

  /** The fields a profile has only when the user document exists. */
  datatype ProfileDetails = ProfileDetails(
    weight: Option<int>, height: Option<int>, profileImageUrl: Option<string>,
    bio: string, blockedUsers: seq<string>)

  /** The hook's `userProfile`; `details` is `None` for the guest profile. */
  datatype UserProfile = UserProfile(uid: string, email: Option<string>, username: string, details: Option<ProfileDetails>)

  /** `x || null` for a number: 0 becomes null. */
  function NonZero(x: Option<int>): (r: Option<int>)
    ensures r.Some? <==> x.Some? && x.value != 0
    ensures r.Some? ==> r == x
  {
    if x.Some? && x.value != 0 then x else None
  }

  /** The profile for a snapshot of the user document: from the document
      when it exists (falsy fields replaced), the guest profile otherwise.
      The uid and email always come from the account. */
  function ProfileFrom(user: AuthUser, doc: Option<UserDoc>): (p: UserProfile)
    ensures p.uid == user.uid && p.email == user.email
    ensures doc.None? ==> p.username == GuestUsername && p.details.None?
    ensures doc.Some? ==> p.username == StrOr(doc.value.username, DefaultUsername) && p.details.Some?
    ensures doc.Some? ==>
              p.details.value.weight == NonZero(doc.value.weight) &&
              p.details.value.height == NonZero(doc.value.height) &&
              p.details.value.profileImageUrl == NonEmpty(doc.value.profileImageUrl) &&
              p.details.value.bio == StrOr(doc.value.bio, "") &&
              p.details.value.blockedUsers == Feed.BlockList(doc.value.blockedUsers)
  {
    match doc
    case None => UserProfile(user.uid, user.email, GuestUsername, None)
    case Some(d) =>
      UserProfile(user.uid, user.email, StrOr(d.username, DefaultUsername),
                  Some(ProfileDetails(NonZero(d.weight), NonZero(d.height), NonEmpty(d.profileImageUrl),
                                      StrOr(d.bio, ""), Feed.BlockList(d.blockedUsers))))
  }

  /** `userProfile?.blockedUsers`: absent without a profile and for the
      guest profile. */
  function BlockedUsersOf(profile: Option<UserProfile>): (b: Option<seq<string>>)
    ensures b.Some? <==> profile.Some? && profile.value.details.Some?
    ensures b.Some? ==> b.value == profile.value.details.value.blockedUsers
  {
    if profile.Some? && profile.value.details.Some? then Some(profile.value.details.value.blockedUsers) else None
  }

  /** After blocking `x`, the next profile snapshot carries `x` in its
      blocklist, and the feed built from that profile has no post whose
      `userId` is `x`. */
  lemma BlockedAuthorLeavesFeed(index: seq<TimelineDoc>, groupId: Option<string>, user: AuthUser, u: UserDoc, x: string)
    requires Feed.NewestFirst(index) && x != ""
    ensures var profile := ProfileFrom(user, Some(Safety.Blocked(u, x)));
            x in Feed.BlockList(BlockedUsersOf(Some(profile))) &&
            forall p :: p in Feed.FeedPosts(index, groupId, BlockedUsersOf(Some(profile))) ==> p.userId != Some(x)
  {
  }

  /** The guest profile (no user document) filters nothing: the feed is the
      query result itself. */
  lemma GuestFeedIsUnfiltered(index: seq<TimelineDoc>, groupId: Option<string>, user: AuthUser)
    requires Feed.NewestFirst(index)
    ensures Feed.FeedPosts(index, groupId, BlockedUsersOf(Some(ProfileFrom(user, None)))) == Feed.FeedQuery(index, groupId)
  {
    Feed.EmptyBlocklistIsIdentity(Feed.FeedQuery(index, groupId));
  }

  class AuthHook {
    var user: Option<AuthUser>
    var profile: Option<UserProfile>
    var loading: bool

    constructor ()
      ensures user.None? && profile.None? && loading
    {
      user := None;
      profile := None;
      loading := true;
    }

    /** The auth-state callback, followed by the profile effect it
        triggers: signing out clears the profile and ends loading; signing
        in starts the profile listener, which sets `loading` until its first
        snapshot. */
    method OnAuthStateChanged(u: Option<AuthUser>)
      modifies this
      ensures user == u
      ensures u.None? ==> profile.None? && !loading
      ensures u.Some? ==> profile == old(profile) && loading
    {
      user := u;
      if u.None? {
        profile := None;
        loading := false;
      } else {
        loading := true;
      }
    }

    /** A snapshot of the signed-in user's document (`None` when it does
        not exist). */
    method OnProfileSnapshot(doc: Option<UserDoc>)
      requires user.Some?
      modifies this
      ensures user == old(user) && !loading
      ensures profile == Some(ProfileFrom(user.value, doc))
    {
      profile := Some(ProfileFrom(user.value, doc));
      loading := false;
    }

    /** The listener's error callback: loading ends, the profile stays. */
    method OnProfileError()
      modifies this
      ensures user == old(user) && profile == old(profile) && !loading
    {
      loading := false;
    }
  }
}
