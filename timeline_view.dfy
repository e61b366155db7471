/** The `Timeline` component: a spinner while loading, an empty-state
    message when there are no posts, otherwise one `Post` per document with
    its loosely typed fields normalised to the props the card expects. */
module TimelineView {
  import opened Common
  import opened Documents
  import RecordSaver

  const AnonymousName: string := "名無し"
  const GroupEmptyMessage: string := "まだグループの投稿がありません。"
  const GlobalEmptyMessage: string := "まだ投稿がありません。"
  const EmptyPrompt: string := "最初の1人になりませんか？"

  /** The props one `Post` card receives. */
  datatype PostProps = PostProps(
    id: string, user: string, userAvatar: Option<string>, text: string,
    imageUrls: seq<string>, likes: int, comments: int, timestamp: int,
    activities: seq<SavedActivity>)

  /** The card's props for one document. `now` is the time the hook uses
      for a document without a server timestamp. */
  function NormalizePost(d: TimelineDoc, now: int): (p: PostProps)
    ensures p.id == d.id
    ensures p.user == StrOr(d.username, AnonymousName) && p.user != ""
    ensures p.userAvatar.Some? <==> Truthy(d.profileImageUrl) || Truthy(d.userIcon)
    ensures Truthy(d.profileImageUrl) ==> p.userAvatar == d.profileImageUrl
    ensures !Truthy(d.profileImageUrl) && Truthy(d.userIcon) ==> p.userAvatar == d.userIcon
    ensures Truthy(d.text) ==> p.text == d.text.value
    ensures !Truthy(d.text) ==> p.text == StrOr(d.comment, "")
    ensures d.imageUrls.Some? ==> p.imageUrls == d.imageUrls.value
    ensures d.imageUrls.None? ==> p.imageUrls == (if Truthy(d.imageUrl) then [d.imageUrl.value] else [])
    ensures p.likes == NumOr(d.likes, 0) && p.comments == NumOr(d.comments, 0)
    ensures p.timestamp == (if d.createdAt.Some? then d.createdAt.value else now)
    ensures p.activities == (if d.activities.Some? then d.activities.value else [])
  {
    var avatar := if Truthy(d.profileImageUrl) then d.profileImageUrl else NonEmpty(d.userIcon);
    var text := if Truthy(d.text) then d.text.value else StrOr(d.comment, "");
    var images := if d.imageUrls.Some? then d.imageUrls.value
                  else if Truthy(d.imageUrl) then [d.imageUrl.value] else [];
    PostProps(d.id, StrOr(d.username, AnonymousName), avatar, text, images,
              NumOr(d.likes, 0), NumOr(d.comments, 0),
              if d.createdAt.Some? then d.createdAt.value else now,
              if d.activities.Some? then d.activities.value else [])
  }

  /** What the component renders. */
  datatype Screen = Spinner | EmptyState(message: string, prompt: string) | PostList(items: seq<PostProps>)

  /** The component for the hook's `loading` flag and posts. */
  function TimelineScreen(loading: bool, posts: seq<TimelineDoc>, groupId: Option<string>, now: int): (s: Screen)
    ensures loading <==> s.Spinner?
    ensures s.EmptyState? <==> !loading && posts == []
    ensures s.EmptyState? ==> s.prompt == EmptyPrompt &&
                              s.message == (if Truthy(groupId) then GroupEmptyMessage else GlobalEmptyMessage)
    ensures s.PostList? ==> |s.items| == |posts| &&
                            forall i :: 0 <= i < |posts| ==> s.items[i] == NormalizePost(posts[i], now)
  {
    if loading then Spinner
    else if posts == [] then
      EmptyState(if Truthy(groupId) then GroupEmptyMessage else GlobalEmptyMessage, EmptyPrompt)
    else PostList(seq(|posts|, i requires 0 <= i < |posts| => NormalizePost(posts[i], now)))
  }

  /** A post written by the record flow shows the author's name, the
      record's comment, all its images, its activities and the post's own
      server time, with zero likes and comments. */
  lemma RecordPostRendering(postId: string, record: RecordDoc, recordId: string, user: AuthUser, postTime: int, now: int)
    ensures var p := NormalizePost(RecordSaver.RecordPost(postId, record, recordId, user, postTime), now);
            p.user == StrOr(user.displayName, RecordSaver.DefaultUsername) &&
            p.userAvatar == NonEmpty(user.photoURL) &&
            p.text == record.comment && p.imageUrls == record.imageUrls &&
            p.activities == record.activities && p.timestamp == postTime &&
            p.likes == 0 && p.comments == 0
  {
  }

  /** A stored empty `imageUrls` array is truthy, so it hides a legacy
      `imageUrl`; only a missing array falls back to it. */
  lemma EmptyImageArrayHidesLegacyUrl(d: TimelineDoc, now: int)
    requires Truthy(d.imageUrl)
    ensures d.imageUrls == Some([]) ==> NormalizePost(d, now).imageUrls == []
    ensures d.imageUrls.None? ==> NormalizePost(d, now).imageUrls == [d.imageUrl.value]
  {
  }
}
