# woma: a verified model of the app's client rules and notification triggers

woma is a fitness app built with React Native and Firebase. Users record
activities, weight, comments and photos, and share records on a timeline
filtered by each viewer's blocklist. They chat one-to-one with unread
badges, report and block other users, and receive push notifications from
server-side triggers.

This project models the rules behind those features in Dafny. The document
store is an in-memory object (`Documents.Firestore`, and `Chat.ChatRoom` for
a chat room with its messages). Each hook or component is one module:

| module | file | models |
|---|---|---|
| `Common` | common.dfy | JavaScript truthiness of optional fields, `x \|\| d`, `x ?? d`, `arrayUnion`, order-preserving subsequences |
| `Documents` | documents.dfy | the stored document shapes and the store |
| `Chat` | chat.dfy | `useChat`: room id, message mapping, `onSend`, `markAsRead` |
| `Unread` | unread.dfy | `useUnreadCount`: the badge total |
| `Feed` | feed.dfy | `useTimeline`: the feed query and the blocklist filter |
| `Safety` | safety.dfy | `useSafety`: report and block |
| `Triggers` | triggers.dfy | `functions/index.ts`: push gating, token loop, chunked sending, DM/like/comment triggers |
| `RecordForm` | record_form.dfy | `RecordForm`: the activity list handlers and save validation |
| `RecordInputs` | record_inputs.dfy | `RecordFormInputs`: the photo list |
| `RecordSaver` | record_saver.dfy | `useRecordSaver`: uploads, sanitising, the record and timeline writes |
| `TimelineView` | timeline_view.dfy | `Timeline`: post normalisation and screen selection |
| `Auth` | auth.dfy | `useAuth`: profile normalisation and auth/loading state |
| `HealthSync` | health_sync.dfy | `useHealthSync`: the once-per-session step suggestion |
| `Push` | push.dfy | `usePushNotifications`: tap routing, token saving, the daily reminder |

Code that updates state in place is modelled as classes whose methods have
`modifies` clauses. This covers the chat room, the hooks' state fields, the
store collections and the health-sync flag. Pure expressions are modelled as
functions. Loops in the source are methods with loop invariants:
- the badge accumulator;
- the token loop and the chunk loop of `sendPushNotification`;
- the in-place `splice` of `removeImage`.

Each loop method is proved against a specification function. Lemmas then
state the properties of that function. Store failures are boolean
parameters. Clocks and server timestamps are integer parameters. The push
SDK's token test, the storage upload and `Number(...)` are function
parameters.

## Model

| member | source | states |
|---|---|---|
| Chat.SortedPair | src/features/dm/hooks/useChat.ts:16 | `[a, b].sort()` holds exactly the two ids, with the smaller first |
| Chat.StrLessAsymmetric | src/features/dm/hooks/useChat.ts:16 | the string order of `sort` never puts two strings each before the other |
| Chat.StrLessTotal | src/features/dm/hooks/useChat.ts:16 | of two different strings, one sorts first |
| Chat.RoomId | src/features/dm/hooks/useChat.ts:16-17 | the room id is one of the two ids, `_`, then the other |
| Chat.RoomIdSymmetric | src/features/dm/hooks/useChat.ts:16-17 | both users derive the same room id and the same member pair |
| Chat.RoomIdIsOrderedJoin | src/features/dm/hooks/useChat.ts:16-17 | the room id is the smaller id + `_` + the larger id, in either argument order |
| Chat.RoomIdExample | src/features/dm/hooks/useChat.ts:16-17 | users `u1` and `u2` share room `u1_u2` |
| Chat.RoomIdFor | src/features/dm/hooks/useChat.ts:15-17 | there is a room id iff both ids are truthy; equal ids give `a_a` without error |
| Chat.ChatHook.IdsChanged | src/features/dm/hooks/useChat.ts:14-18 | the effect sets the derived id, or returns early and keeps the previous id |
| Chat.NewMessageDoc | src/features/dm/hooks/useChat.ts:54-61 | the stored message has the sender as `senderId`, the message's text and user, and an `image` only when one is given |
| Chat.ToChatMessage | src/features/dm/hooks/useChat.ts:28-39 | the document id becomes the message id; the defaults are text `''`, user `unknown`/`Unknown` and image null; a pending timestamp reads as the local clock |
| Chat.SendThenRead | src/features/dm/hooks/useChat.ts:54-63 | a message written by `onSend` reads back with its own text, user and image and the server time |
| Chat.MapSnapshot | src/features/dm/hooks/useChat.ts:28-40 | one chat message per document, in query order |
| Chat.MapSnapshotKeepsOrder | src/features/dm/hooks/useChat.ts:25-28 | the mapped messages stay newest first |
| Chat.ChatHook.OnMessagesSnapshot | src/features/dm/hooks/useChat.ts:27-41 | the hook publishes the mapped snapshot |
| Chat.UnreadOf | src/features/dm/hooks/useUnreadCount.ts:25-28 | a number counter counts as its value; a missing counter or a non-number counter counts as 0 |
| Chat.Incremented | src/features/dm/hooks/useChat.ts:77-79 | `increment(1)` in a merge raises that one counter by 1 and keeps every other counter |
| Chat.AfterSend | src/features/dm/hooks/useChat.ts:66-80 | the merged room stores `members` as the sorted pair of the two users, whose `_` join is the room id, carries the last-message text and the room write's server time, raises the partner's counter by 1 and keeps every other counter |
| Chat.AfterRead | src/features/dm/hooks/useChat.ts:93-97 | the merged room zeroes the reader's counter and keeps the members, last message, time and every other counter |
| Chat.Zeroed | src/features/dm/hooks/useChat.ts:93-97 | merging `{[uid]: 0}` zeroes that counter and keeps every other counter |
| Chat.LastMessageText | src/features/dm/hooks/useChat.ts:66-67 | the summary is the text, or the photo marker for an image sent without text |
| Chat.AfterSendCounters | src/features/dm/hooks/useChat.ts:72-80 | after a send the partner's counter is 1 higher, every other counter is unchanged, and both users are members |
| Chat.AfterReadCounters | src/features/dm/hooks/useChat.ts:88-97 | reading zeroes only the reader's counter, and a second read changes nothing |
| Chat.ChatRoom.constructor | src/features/dm/hooks/useChat.ts:69 | a room never written has no members, no summary, no counters and no messages |
| Chat.OnSend | src/features/dm/hooks/useChat.ts:47-85 | no-op without a room or ids; an empty batch throws before any write; otherwise one message is appended, then the room is merged; a failed message write touches nothing, and a failed merge keeps the appended message; the message and the room each get their own write's server time |
| Chat.MarkAsRead | src/features/dm/hooks/useChat.ts:88-101 | with a room and a uid, a successful write zeroes that counter only; otherwise nothing changes; messages are never touched |
| Unread.Contribution | src/features/dm/hooks/useUnreadCount.ts:18-28 | a room adds the user's counter when the user is a member, else nothing |
| Unread.MemberRooms | src/features/dm/hooks/useUnreadCount.ts:16-19 | the `array-contains` query returns exactly the rooms listing the uid |
| Unread.SnapshotSumIsTotal | src/features/dm/hooks/useUnreadCount.ts:16-30 | summing the query's rooms equals the sum of the uid's counters over all rooms that list it |
| Unread.CountUnread | src/features/dm/hooks/useUnreadCount.ts:21-30 | the `forEach` accumulator ends at the sum of the snapshot's number counters |
| Unread.TotalUnread | src/features/dm/hooks/useUnreadCount.ts:10-34 | 0 without a uid; otherwise the sum of the uid's counters over its rooms |
| Unread.TotalAfterReplace | src/features/dm/hooks/useUnreadCount.ts:22-30 | replacing one room changes the total by exactly the change in that room's share |
| Unread.TotalDependsOnlyOnOwnCounters | src/features/dm/hooks/useUnreadCount.ts:18-25 | other users' counters and rooms without the uid never affect the total |
| Unread.SendRaisesPartnerTotal | src/features/dm/hooks/useUnreadCount.ts:21-30 | one send raises the partner's badge by exactly 1 |
| Unread.SendKeepsSenderTotal | src/features/dm/hooks/useUnreadCount.ts:21-30 | a send leaves the sender's own badge unchanged |
| Unread.ReadClearsRoomShare | src/features/dm/hooks/useUnreadCount.ts:21-30 | reading removes exactly that room's share of the reader's badge and no one else's |
| Unread.ThreeSendsScenario | src/features/dm/hooks/useUnreadCount.ts:25-28 | three sends give 3; the sender reading keeps 3; the recipient reading gives 0 |
| Feed.BlockList | src/features/timeline/hooks/useTimeline.ts:13 | an absent blocklist is empty |
| Feed.VisibleFeed | src/features/timeline/hooks/useTimeline.ts:37-44 | a post is kept iff it is not blocked, meaning its truthy `userId` is not in the blocklist |
| Feed.VisibleFeedIsSubsequence | src/features/timeline/hooks/useTimeline.ts:27-44 | the result is an order-preserving subsequence of the snapshot |
| Feed.PostsWithoutUserIdKept | src/features/timeline/hooks/useTimeline.ts:38-39 | posts without a truthy `userId` are always kept |
| Feed.EmptyBlocklistIsIdentity | src/features/timeline/hooks/useTimeline.ts:13 | an absent or empty blocklist keeps every post |
| Feed.VisibleFeedIdempotent | src/features/timeline/hooks/useTimeline.ts:37-44 | filtering twice equals filtering once |
| Feed.BlockingMoreShowsLess | src/features/timeline/hooks/useTimeline.ts:37-44 | a larger blocklist yields a subsequence of the feed |
| Feed.RecordPostsPassFilter | src/features/timeline/hooks/useTimeline.ts:39 | a post with its author only in `uid` passes even when that author is blocked |
| Feed.FeedQuery | src/features/timeline/hooks/useTimeline.ts:19-23 | exactly the first 50 of the group's posts in the `createdAt`-descending index, i.e. the newest 50, or all of them when there are fewer |
| Feed.GroupPosts | src/features/timeline/hooks/useTimeline.ts:19-20 | `where("groupId", "==", groupId)`: exactly the index's posts in the group, in index order |
| Feed.QueryPrefix | src/features/timeline/hooks/useTimeline.ts:19-23 | `limit(n)`: the first `n` of the group's posts in index order, or all of them when there are fewer |
| Feed.SubsequenceKeepsOrder | src/features/timeline/hooks/useTimeline.ts:20-22 | any subsequence of a newest-first list is newest-first |
| Feed.SubsequenceMembers | src/features/timeline/hooks/useTimeline.ts:37 | a subsequence has only the list's elements |
| Feed.FeedPosts | src/features/timeline/hooks/useTimeline.ts:11-54 | the published feed is newest-first, at most 50, in the group and free of blocked authors, and it shows every queried post that is not blocked; it is a function of group id and blocklist, so it changes when they do |
| Feed.RefilterAfterBlock | src/features/timeline/hooks/useTimeline.ts:54 | after blocking `x`, re-filtering the same snapshot drops every post by `x` |
| Common.ArrayUnion | src/hooks/useSafety.ts:52-54 | `arrayUnion` adds the element, keeps the old ones and adds nothing else |
| Common.ArrayUnionIdempotent | src/hooks/useSafety.ts:52-54 | a second `arrayUnion` of the same element changes nothing |
| Safety.ReportReason | src/hooks/useSafety.ts:12 | the reason defaults to `Inappropriate content` only when it is not passed |
| Safety.Blocked | src/hooks/useSafety.ts:52-54 | the target is blocked, earlier blocks are kept, and no other user field changes |
| Safety.BlockIdempotent | src/hooks/useSafety.ts:52-54 | blocking twice equals blocking once, and blocking a blocked user changes nothing |
| Safety.SafetyHook.constructor | src/hooks/useSafety.ts:9 | `loading` starts false |
| Safety.SafetyHook.ReportContent | src/hooks/useSafety.ts:12-31 | no-op without a uid; one report is appended per successful call, with no deduplication; `loading` ends false |
| Safety.SafetyHook.BlockUser | src/hooks/useSafety.ts:34-68 | no-op without a uid or on cancel; on confirm, a successful update blocks the target; a failed update changes nothing; `loading` ends false |
| Triggers.TokenMessages | functions/index.ts:24-39 | one message per valid token and only for valid tokens; invalid tokens are skipped |
| Triggers.ValidTokens | functions/index.ts:27-31 | the tokens that pass the SDK's test, as an order-keeping subsequence |
| Triggers.TokenMessagesInOrder | functions/index.ts:27-39 | the i-th message goes to the i-th valid token, so messages follow token order |
| Triggers.TokenMessagesCount | functions/index.ts:27-39 | the number of messages is the number of valid tokens |
| Triggers.BuildMessages | functions/index.ts:25-39 | the push loop builds exactly the specified messages |
| Triggers.Outbox | functions/index.ts:17-39 | nothing for a falsy recipient, a missing user doc or an opted-out user (an absent setting still sends); every message goes to a valid token of the recipient's own `fcmTokens` |
| Triggers.OutboxReachesEveryValidToken | functions/index.ts:17-39 | every valid token of an opted-in user gets the message |
| Triggers.Chunks | functions/index.ts:41 | chunks are non-empty and hold at most 100 messages |
| Triggers.ChunksPartition | functions/index.ts:41 | the chunks, concatenated, are the messages |
| Triggers.FailedChunkDoesNotStopOthers | functions/index.ts:42-48 | a message in a chunk that does not fail is delivered whatever other chunks do |
| Triggers.NoFailureDeliversAll | functions/index.ts:42-48 | without failures every message is delivered |
| Triggers.SendChunks | functions/index.ts:42-48 | the chunk loop delivers exactly the specified messages |
| Triggers.SendPushNotification | functions/index.ts:10-52 | delivered messages are those of non-failing chunks; with no failure, the whole outbox |
| Triggers.FirstOther | functions/index.ts:66 | `find`: none iff every member is the sender; otherwise a member differing from the sender such that every member before it is the sender |
| Triggers.OnNewMessage | functions/index.ts:55-78 | a notification is sent iff the room exists, the sender id is truthy and some member differs from it; the recipient is the first such member; title `新着メッセージ`, body `<username or 誰か>さんからメッセージが届きました` and data `{type: "dm", partnerId: sender}` |
| Triggers.DmNotifiesPartner | functions/index.ts:64-67 | in a room written by `onSend`, a message from one user notifies the other |
| Triggers.OnPostActivity | functions/index.ts:87-99 | a notification is sent iff the post exists and its `userId` differs from the actor; it is then addressed to that `userId` with the given title, body and `{type, postId}` data |
| Triggers.OnNewLike | functions/index.ts:81-101 | a like on a post not owned by the liker notifies the post's `userId` with `えらい！`, the liker's name and `{type: "like", postId}` |
| Triggers.OnNewComment | functions/index.ts:103-124 | a comment on a post not owned by the commenter notifies the post's `userId` with `コメント`, the name and text, and `{type: "comment", postId}` |
| Triggers.ActivityReachesOwner | functions/index.ts:81-124 | a like or comment by someone else reaches every valid token of the post's owner who has not switched notifications off |
| Triggers.NoSelfNotification | functions/index.ts:91-93 | liking or commenting on one's own post notifies nobody |
| Triggers.PostWithoutOwnerNotifiesNobody | functions/index.ts:91-95 | a post without `userId`, such as a record post, yields a notification with no recipient, and nothing is sent |
| RecordForm.NewActivity | src/features/record/components/Recordform.tsx:42-53 | intensity `中`, duration 30, missing METs values 0, name defaults to `名称不明`, METs value matching the intensity |
| RecordForm.MetsFor | src/features/record/components/Recordform.tsx:64 | `低` selects the low METs value, `高` the high one, any other level the mid one |
| RecordForm.SelectExercise | src/features/record/components/Recordform.tsx:38-56 | exactly one activity is appended at the end, the others are kept, and METs/intensity agreement is preserved |
| RecordForm.Applied | src/features/record/components/Recordform.tsx:62-67 | an intensity update sets the METs value from low/high/mid; any other update sets only its one field |
| RecordForm.UpdateActivity | src/features/record/components/Recordform.tsx:58-69 | only activities with the id change; length and order stay; METs/intensity agreement is preserved |
| RecordForm.RemoveActivity | src/features/record/components/Recordform.tsx:71-73 | every activity with the id goes; the others stay, in order |
| RecordForm.RemoveActivityCounts | src/features/record/components/Recordform.tsx:71-73 | every activity without the id is kept as many times as it occurred, and no copy of one with the id remains |
| RecordForm.RemoveAbsentId | src/features/record/components/Recordform.tsx:72 | removing an id that is not present changes nothing |
| RecordForm.TrimStart | src/features/record/components/Recordform.tsx:82 | the result is a suffix that does not start with white space, and every removed character is white space |
| RecordForm.TrimEnd | src/features/record/components/Recordform.tsx:82 | the result is a prefix that does not end with white space, and every removed character is white space |
| RecordForm.Trim | src/features/record/components/Recordform.tsx:82 | `trim()` is a contiguous part of the string that neither starts nor ends with white space, and everything before and after it is white space |
| RecordForm.TrimEmptyIffBlank | src/features/record/components/Recordform.tsx:82 | `!comment.trim()` holds iff every character is white space |
| RecordForm.TrimStartEmptyIffBlank | src/features/record/components/Recordform.tsx:82 | trimming the start empties the string iff it is all white space |
| RecordForm.TrimEndKeepsNonBlankHead | src/features/record/components/Recordform.tsx:82 | trimming the end keeps a string that starts with a non-space |
| RecordForm.HandleSave | src/features/record/components/Recordform.tsx:80-94 | the save is refused iff there are no activities, no images, no weight and only white space in the comment; otherwise the form data goes unchanged to `saveRecord` |
| RecordInputs.AfterPick | src/features/record/components/RecordformInputs.tsx:24-48 | denied permission or a cancel keeps the list; otherwise the picked URIs are appended in order |
| RecordInputs.PickIsNotCappedInTotal | src/features/record/components/RecordformInputs.tsx:36-46 | 4 images plus a pick of 5 give 9; the limit applies to one pick only |
| RecordInputs.SpliceStart | src/features/record/components/RecordformInputs.tsx:52 | `splice` starts at the index, counts a negative index from the end, and clamps to the list |
| RecordInputs.RemoveImage | src/features/record/components/RecordformInputs.tsx:50-54 | the copy, spliced in place, is the list minus the element at the splice position |
| RecordInputs.Spliced | src/features/record/components/RecordformInputs.tsx:52 | `splice(index, 1)` removes the one element at the clamped start and keeps the others in order; a start at the length changes nothing |
| RecordInputs.RemoveRenderedIndex | src/features/record/components/RecordformInputs.tsx:87-92 | removing a rendered index drops exactly that image; the length falls by 1 and the rest keep their order |
| RecordInputs.RemoveOutOfRange | src/features/record/components/RecordformInputs.tsx:52 | an index at or past the end changes nothing |
| RecordSaver.ToNumber | src/features/record/useRecordSaver.ts:51-52 | `Number(x) \|\| 0`: the parsed value, or 0 for NaN or a missing field |
| RecordSaver.Sanitize | src/features/record/useRecordSaver.ts:47-59 | the name and METs are kept; a falsy type becomes `other` and an empty intensity `中`, both never empty; duration and steps are parsed |
| RecordSaver.SanitizeAll | src/features/record/useRecordSaver.ts:47 | length and order are kept |
| RecordSaver.SavedMetsMatchIntensity | src/features/record/useRecordSaver.ts:50-57 | METs/intensity agreement in the form survives sanitising |
| RecordSaver.WeightValue | src/features/record/useRecordSaver.ts:65 | an empty weight is null; otherwise the parsed number, or NaN |
| RecordSaver.UploadFrom | src/features/record/useRecordSaver.ts:31-43 | all URLs in order iff every upload succeeds |
| RecordSaver.UploadAll | src/features/record/useRecordSaver.ts:28-44 | the URLs have the length and order of the URIs, or the call fails when any upload fails |
| RecordSaver.BuildRecord | src/features/record/useRecordSaver.ts:62-70 | the record holds the uid, the sanitised activities, the weight, the comment, the URLs, the first URL or null, and the server time |
| RecordSaver.RecordPost | src/features/record/useRecordSaver.ts:77-85 | the post holds the record's fields plus recordId, name `ユーザー` by default, the photo or null, 0 likes and comments, type `record`, and its own write's server time; the author is in `uid`, not `userId` |
| RecordSaver.RecordPostIgnoresBlocklist | src/features/record/useRecordSaver.ts:63 | a record post shows in every viewer's feed, whatever the blocklist |
| RecordSaver.RecordSaverHook.constructor | src/features/record/useRecordSaver.ts:8 | `saving` starts false |
| RecordSaver.RecordSaverHook.SaveRecord | src/features/record/useRecordSaver.ts:11-95 | given a fresh record id, as `addDoc` generates: without a user nothing happens; a failed upload writes nothing; the record is written first, then the post when asked, each with its own server time; `saving` ends false |
| TimelineView.NormalizePost | src/features/timeline/components/Timeline.tsx:39-51 | the fallbacks: a falsy name becomes `名無し`; avatar from profile image, then icon, then null; text, then comment, then `""`; `imageUrls`, then `[imageUrl]`, then `[]`; 0 likes and comments; `[]` activities |
| TimelineView.TimelineScreen | src/features/timeline/components/Timeline.tsx:13-58 | spinner iff loading; the empty state iff there are no posts, with the group or the global message; otherwise one card per post, in order, keyed by id |
| TimelineView.RecordPostRendering | src/features/timeline/components/Timeline.tsx:39-51 | a record post shows its author name, comment, images, activities and the post write's server time |
| TimelineView.EmptyImageArrayHidesLegacyUrl | src/features/timeline/components/Timeline.tsx:45 | a stored empty `imageUrls` hides `imageUrl`; only a missing array falls back |
| Auth.NonZero | src/features/auth/useAuth.ts:47-48 | a missing or 0 value becomes null |
| Auth.ProfileFrom | src/features/auth/useAuth.ts:40-59 | uid and email come from the account; an existing doc gives the defaults `名無しさん`, bio `""` and blocklist `[]`; a missing doc gives `ゲスト` with no other fields |
| Auth.BlockedUsersOf | src/features/auth/useAuth.ts:51 | only a profile built from a document has a blocklist |
| Auth.BlockedAuthorLeavesFeed | src/features/auth/useAuth.ts:40-52 | after a block, the next profile's blocklist has the target and the feed has no post by the target |
| Auth.GuestFeedIsUnfiltered | src/features/auth/useAuth.ts:53-58 | the guest profile filters nothing |
| Auth.AuthHook.constructor | src/features/auth/useAuth.ts:18-20 | no user, no profile, loading |
| Auth.AuthHook.OnAuthStateChanged | src/features/auth/useAuth.ts:24-38 | sign-out clears the profile and ends loading; sign-in starts loading the profile |
| Auth.AuthHook.OnProfileSnapshot | src/features/auth/useAuth.ts:40-60 | the profile is built from the snapshot and loading ends |
| Auth.AuthHook.OnProfileError | src/features/auth/useAuth.ts:61-63 | loading ends and the profile stays |
| HealthSync.Check | src/hooks/useHealthSync.ts:14-51 | a dialog iff not yet suggested, available, permitted and steps > 0; only a dialog sets the flag |
| HealthSync.NoDialogAfterSuggestion | src/hooks/useHealthSync.ts:17 | once the flag is set, no check shows a dialog |
| HealthSync.AtMostOneDialogPerSession | src/hooks/useHealthSync.ts:7-28 | any run of checks in one session shows at most one dialog |
| HealthSync.Respond | src/hooks/useHealthSync.ts:33-46 | "記録する" opens the record tab with `autoSteps` equal to the steps; "あとで" does nothing |
| HealthSync.SessionFlag.constructor | src/hooks/useHealthSync.ts:7 | the flag starts unset |
| HealthSync.HealthSyncHook.constructor | src/hooks/useHealthSync.ts:10 | the ref starts at the current app state |
| HealthSync.HealthSyncHook.CheckAndSuggest | src/hooks/useHealthSync.ts:14-51 | the flag and the dialog follow `Check` |
| HealthSync.HealthSyncHook.OnAppStateChange | src/hooks/useHealthSync.ts:58-67 | a check runs only from inactive or background to active; the new state is always stored |
| Push.Route | src/hooks/usePushNotifications.ts:31-38 | dm with a partner opens `/dm/<partner>`; like or comment opens `/(tabs)/home`; a dm without a truthy partner, a missing payload or any other type opens nothing |
| Push.MessageNotificationOpensSenderDm | src/hooks/usePushNotifications.ts:33-34 | tapping a message notification opens the DM with its sender |
| Push.PostNotificationOpensHome | src/hooks/usePushNotifications.ts:35-36 | tapping a like or comment notification opens home |
| Push.RegisteredToken | src/hooks/usePushNotifications.ts:77-105 | a token only on a device with granted permission, asked for only when not already granted |
| Push.TokenSaved | src/hooks/usePushNotifications.ts:49-51 | the token is added to `fcmTokens`, old tokens are kept and no other field changes |
| Push.TokenSavedIdempotent | src/hooks/usePushNotifications.ts:49-51 | saving a token twice equals saving it once |
| Push.SavedTokenReceivesPushes | src/hooks/usePushNotifications.ts:46-56 | once saved, a valid token receives every notification to an opted-in user |
| Push.PushHook.constructor | src/hooks/usePushNotifications.ts:12 | the token state starts as `''` |
| Push.PushHook.SaveTokenToFirestore | src/hooks/usePushNotifications.ts:46-56 | a successful update adds the token; a failed one, or a missing document, changes nothing |
| Push.PushHook.OnRegistered | src/hooks/usePushNotifications.ts:17-24 | the token is kept, and saved only when the user id and the token are both truthy |
| Push.PushHook.ScheduleDailyReminder | src/hooks/usePushNotifications.ts:58-72 | afterwards exactly one reminder is scheduled: the 20:00 repeating one |

## Left out

- Network and storage I/O, listeners and React lifecycles are not modelled. Each write is a method on the in-memory store, and a failure is a boolean parameter. A listener callback is a method called with the snapshot.
- Concurrency is not modelled: one sequential client only. The two writes of `onSend` and those of `saveRecord` are separate, and the model keeps them so. It claims no atomicity, retries or cross-device conflicts.
- Chat.StrLess compares characters, not UTF-16 code units. The two orders differ only for characters outside the Basic Multilingual Plane.
- RecordSaver.ToNumber, RecordSaver.WeightValue: `Number(...)` is an abstract `parse` to whole numbers. Decimal weights and durations are not modelled.
- Triggers.Chunks: the push SDK's own chunking is not shown. The model uses fixed chunks of 100, and the lemmas rely only on the chunks partitioning the messages.
- Triggers.Outbox: the SDK's token test is the parameter `isValid`. Exceptions other than a failing chunk are left out.
- RecordSaver.RecordSaverHook.SaveRecord: the per-upload file name (clock plus index) is not modelled. The hook obtains a router but never navigates, so there is no navigation to model. The upload result per index is a parameter. The ids `addDoc` generates are parameters; the record id is required to be fresh, which `addDoc` guarantees.
- HealthSync.HealthSyncHook.CheckAndSuggest: each check runs to completion before the next one starts. In the app, two checks that overlap across `await`s could both pass the flag test before either sets it.
- TimelineView.TimelineScreen: the `loading` flag of `useTimeline` is a parameter. So is the `scrollEnabled` flag, which is not modelled at all.
- Alerts and their texts, router pushes other than the routes above, permission prompts, the received-notification state and the Android channel setup are left out.
- src/features/timeline/components/Post.tsx is not part of this model: it is rendering, with stub handlers. The same holds for src/features/record/components/ActivityInput.tsx (it only forwards edits), src/hooks/useHealthKit.ts (a wrapper), and the layouts under app/.
- Firestore's treatment of `undefined` fields is not modelled. Absent fields are `None`.
