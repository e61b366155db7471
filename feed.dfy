/** The feed of `useTimeline`: the query over the `timeline` collection
    (optional group, newest first, at most 50) and the blocklist filter that
    drops posts whose `userId` is in the viewer's blocklist. */
module Feed {
  import opened Common
  import opened Documents

  const FeedLimit: nat := 50

  /** The blocklist the hook uses: `userProfile?.blockedUsers || []`. */
  function BlockList(blockedUsers: Option<seq<string>>): (b: seq<string>)
    ensures blockedUsers.None? ==> b == []
    ensures blockedUsers.Some? ==> b == blockedUsers.value
  {
    if blockedUsers.Some? then blockedUsers.value else []
  }

  /** `post.userId && blockedUsers.includes(post.userId)`. */
  predicate IsBlocked(post: TimelineDoc, blocked: seq<string>) {
    Truthy(post.userId) && post.userId.value in blocked
  }

  /** The filter: keep every post that is not blocked, in order. */
  function VisibleFeed(posts: seq<TimelineDoc>, blocked: seq<string>): (r: seq<TimelineDoc>)
    ensures |r| <= |posts|
    ensures forall p :: p in r ==> p in posts && !IsBlocked(p, blocked)
    ensures forall p :: p in posts && !IsBlocked(p, blocked) ==> p in r
  {
    if posts == [] then []
    else if IsBlocked(posts[0], blocked) then VisibleFeed(posts[1..], blocked)
    else [posts[0]] + VisibleFeed(posts[1..], blocked)
  }

  /** The filtered posts are the snapshot's posts with some left out and the
      rest in their order. */
  lemma {:induction false} VisibleFeedIsSubsequence(posts: seq<TimelineDoc>, blocked: seq<string>)
    ensures IsSubsequence(VisibleFeed(posts, blocked), posts)
  {
    if posts != [] {
      VisibleFeedIsSubsequence(posts[1..], blocked);
      if IsBlocked(posts[0], blocked) {
        SubsequenceOfTail(VisibleFeed(posts[1..], blocked), posts);
      }
    }
  }

  /** A post without a truthy `userId` is never filtered out. */
  lemma PostsWithoutUserIdKept(posts: seq<TimelineDoc>, blocked: seq<string>, p: TimelineDoc)
    requires p in posts && !Truthy(p.userId)
    ensures p in VisibleFeed(posts, blocked)
  {
  }

  /** With nothing blocked the filter returns the snapshot unchanged. */
  lemma {:induction false} EmptyBlocklistIsIdentity(posts: seq<TimelineDoc>)
    ensures VisibleFeed(posts, BlockList(None)) == posts
    ensures VisibleFeed(posts, BlockList(Some([]))) == posts
  {
    if posts != [] {
      EmptyBlocklistIsIdentity(posts[1..]);
      assert [posts[0]] + posts[1..] == posts;
    }
  }

  /** Filtering twice is filtering once. */
  lemma {:induction false} VisibleFeedIdempotent(posts: seq<TimelineDoc>, blocked: seq<string>)
    ensures VisibleFeed(VisibleFeed(posts, blocked), blocked) == VisibleFeed(posts, blocked)
  {
    if posts != [] {
      VisibleFeedIdempotent(posts[1..], blocked);
      var rest := VisibleFeed(posts[1..], blocked);
      if !IsBlocked(posts[0], blocked) {
        assert ([posts[0]] + rest)[1..] == rest;
      }
    }
  }

  /** A larger blocklist never shows more: the feed under `more` is a
      subsequence of the feed under `blocked`. */
  lemma {:induction false} BlockingMoreShowsLess(posts: seq<TimelineDoc>, blocked: seq<string>, more: seq<string>)
    requires forall u :: u in blocked ==> u in more
    ensures IsSubsequence(VisibleFeed(posts, more), VisibleFeed(posts, blocked))
  {
    if posts != [] {
      BlockingMoreShowsLess(posts[1..], blocked, more);
      var a := VisibleFeed(posts[1..], more);
      var b := VisibleFeed(posts[1..], blocked);
      if IsBlocked(posts[0], blocked) {
      } else if IsBlocked(posts[0], more) {
        SubsequenceOfTail(a, [posts[0]] + b);
      } else {
        assert ([posts[0]] + a)[1..] == a && ([posts[0]] + b)[1..] == b;
      }
    }
  }

  /** A record-flow post carries `uid`, not `userId`, so it passes the
      filter even when its author is blocked. */
  lemma RecordPostsPassFilter(posts: seq<TimelineDoc>, blocked: seq<string>, p: TimelineDoc)
    requires p in posts && p.userId.None? && p.uid.Some? && p.uid.value in blocked
    ensures p in VisibleFeed(posts, blocked)
  {
  }

  /** `where("groupId", "==", groupId)` when a group id is set. */
  predicate InGroup(post: TimelineDoc, groupId: Option<string>) {
    !Truthy(groupId) || post.groupId == groupId
  }

  /** The feed query over the collection's `createdAt` index, newest first:
      the group's posts (all posts without a group id), the first 50, that
      is the newest 50. */
  function FeedQuery(index: seq<TimelineDoc>, groupId: Option<string>): (r: seq<TimelineDoc>)
    ensures |r| <= FeedLimit
    ensures var m := GroupPosts(index, groupId);
            r == if |m| <= FeedLimit then m else m[..FeedLimit]
    ensures forall p :: p in r ==> p in index && InGroup(p, groupId)
    ensures IsSubsequence(r, index)
    ensures |r| < FeedLimit ==> forall p :: p in index && InGroup(p, groupId) ==> p in r
  {
    QueryPrefix(index, groupId, FeedLimit)
  }

  /** Every post of the group, in index order. */
  function GroupPosts(index: seq<TimelineDoc>, groupId: Option<string>): (m: seq<TimelineDoc>)
    ensures forall p :: p in m <==> p in index && InGroup(p, groupId)
  {
    if index == [] then []
    else
      assert index == [index[0]] + index[1..];
      (if InGroup(index[0], groupId) then [index[0]] else []) + GroupPosts(index[1..], groupId)
  }

  /** `limit(n)` over the group's posts in index order: the first `n` of
      them, or all when there are fewer. */
  function QueryPrefix(index: seq<TimelineDoc>, groupId: Option<string>, n: nat): (r: seq<TimelineDoc>)
    ensures |r| <= n
    ensures var m := GroupPosts(index, groupId);
            r == if |m| <= n then m else m[..n]
    ensures forall p :: p in r ==> p in index && InGroup(p, groupId)
    ensures IsSubsequence(r, index)
    ensures |r| < n ==> forall p :: p in index && InGroup(p, groupId) ==> p in r
  {
    if index == [] || n == 0 then []
    else if InGroup(index[0], groupId) then
      var rest := QueryPrefix(index[1..], groupId, n - 1);
      var m := GroupPosts(index[1..], groupId);
      assert GroupPosts(index, groupId) == [index[0]] + m;
      assert |m| > n - 1 ==> ([index[0]] + m)[..n] == [index[0]] + m[..n - 1];
      assert ([index[0]] + rest)[1..] == rest;
      [index[0]] + rest
    else
      var rest := QueryPrefix(index[1..], groupId, n);
      SubsequenceOfTail(rest, index);
      rest
  }

  /** The index order: `createdAt` descending. */
  predicate NewestFirst(posts: seq<TimelineDoc>) {
    forall i, j :: 0 <= i < j < |posts| ==>
      posts[i].createdAt.Some? && posts[j].createdAt.Some? && posts[j].createdAt.value <= posts[i].createdAt.value
  }

  /** Keeping a subsequence keeps newest-first order. */
  lemma {:induction false} SubsequenceKeepsOrder(sub: seq<TimelineDoc>, s: seq<TimelineDoc>)
    requires NewestFirst(s) && IsSubsequence(sub, s)
    ensures NewestFirst(sub)
    decreases |s|
  {
    if sub != [] && s != [] {
      assert NewestFirst(s[1..]);
      if sub[0] == s[0] {
        SubsequenceKeepsOrder(sub[1..], s[1..]);
        SubsequenceMembers(sub[1..], s[1..]);
        forall j | 0 < j < |sub|
          ensures sub[j].createdAt.Some? && sub[j].createdAt.value <= sub[0].createdAt.value
        {
          assert sub[j] == sub[1..][j - 1];
          assert sub[j] in s[1..];
          var k :| 0 <= k < |s[1..]| && s[1..][k] == sub[j];
          assert s[k + 1] == sub[j];
        }
      } else {
        SubsequenceKeepsOrder(sub, s[1..]);
      }
    }
  }

  lemma {:induction false} SubsequenceMembers(sub: seq<TimelineDoc>, s: seq<TimelineDoc>)
    requires IsSubsequence(sub, s)
    ensures forall x :: x in sub ==> x in s
    decreases |s|
  {
    if sub != [] && s != [] {
      if sub[0] == s[0] {
        SubsequenceMembers(sub[1..], s[1..]);
        assert forall x :: x in sub ==> x == sub[0] || x in sub[1..];
      } else {
        SubsequenceMembers(sub, s[1..]);
      }
    }
  }

  /** What the hook publishes for the current group, blocklist and
      collection: the query result through the filter. Being a function of
      both, it is recomputed whenever the group id or the blocklist changes. */
  function FeedPosts(index: seq<TimelineDoc>, groupId: Option<string>, blockedUsers: Option<seq<string>>): (r: seq<TimelineDoc>)
    requires NewestFirst(index)
    ensures NewestFirst(r) && |r| <= FeedLimit
    ensures forall p :: p in r ==> p in index && InGroup(p, groupId) && !IsBlocked(p, BlockList(blockedUsers))
    ensures forall p :: p in FeedQuery(index, groupId) && !IsBlocked(p, BlockList(blockedUsers)) ==> p in r
  {
    var q := FeedQuery(index, groupId);
    var r := VisibleFeed(q, BlockList(blockedUsers));
    SubsequenceKeepsOrder(q, index);
    VisibleFeedIsSubsequence(q, BlockList(blockedUsers));
    SubsequenceKeepsOrder(r, q);
    r
  }

  /** When the blocklist changes, the effect re-subscribes and filters the new
      listener's snapshot with the new list: after `arrayUnion(x)`, the filter
      keeps no post whose `userId` is `x`, whatever the snapshot holds. */
  lemma RefilterAfterBlock(snapshot: seq<TimelineDoc>, blockedUsers: Option<seq<string>>, x: string)
    requires x != ""
    ensures forall p :: p in VisibleFeed(snapshot, ArrayUnion(blockedUsers, x)) ==> p.userId != Some(x)
  {
  }
}
