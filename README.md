# Photogram client logic in Dafny

This project models the decision logic of a photo-sharing web client. The
client is a React application backed by Supabase, and the model runs it
against an abstract row store (`Store.Backend`). The store has one field per
table:

- posts: newest first
- profiles: keyed by user id
- likes: a set of (post, user) pairs
- comments: oldest first
- follows: a set of (follower, followee) edges
- notifications: newest first

The order of a sequence stands for the `created_at` order the queries ask for.

What the model covers:

- **Hooks.** `FeedPosts` models `usePosts.ts` and `ProfileHooks` models `useProfile.ts`:
  - the paged feed window and the next-page rule;
  - the post record built from one row and its lookups;
  - the comment, per-user and follow reads;
  - the writes (create, delete, like, comment, follow, profile update), each as a method on the store;
  - the notification each write adds and the cache-key prefixes it declares stale.
- **Cache keys.** Keys are data (`QueryKeys`), and "stale" means "has a declared prefix".
- **Components and pages:**
  - classes for the ones whose handlers change local state: `PostCard`, `PostDetailPage`, `FeedScreen`, `CreatePostModal`, `EditProfileModal`, `AuthForm`;
  - functions and lemmas for the pure ones: the profile page and the notifications page.
- **Shared string helpers** (`Text`): JavaScript's `trim()`, `\s`, `toLowerCase()` and `startsWith`, plus the username sanitiser.

**Gateway outcomes are parameters.** A Supabase call's outcome is not computed by the model:

- A write's success is a `bool` parameter.
- A failed read is a member of `failed: set<Request>`.
- An upload's public URL is an `Option<string>`, `None` when the upload fails.
- The clock is a `now: nat` parameter.
- A new row's id is a parameter.

## Model

| member | source | states |
|---|---|---|
| `FeedPosts.WindowsTile` | src/hooks/usePosts.ts:35-44 | page p reads the inclusive window p*10 .. p*10+9: ten rows; each window starts right after the previous one; row i lies in page i/10 and in no other |
| `FeedPosts.LoadedPages` | src/hooks/usePosts.ts:42-51 | n pages fetched from page 0 against one table state: n pages, the last of them the window of page n-1 |
| `FeedPosts.NextPageParam` | src/hooks/usePosts.ts:79-81 | there is a next page iff the last page is full (10 rows), and its parameter is the number of pages loaded |
| `FeedPosts.HasNextPage` | src/hooks/usePosts.ts:79-81 | hasNextPage holds iff a page is loaded and the last one is full |
| `FeedPosts.LoadedPageIsWindow` | src/hooks/usePosts.ts:42-51 | fetching more pages leaves earlier pages as they were: page p of any run of n > p pages is the table slice of window p |
| `FeedPosts.LoadedPagesArePrefix` | src/hooks/usePosts.ts:43-51 | the loaded pages concatenate to the newest min(10n, N) rows of the table, in order |
| `FeedPosts.NextPageWhileRowsRemain` | src/hooks/usePosts.ts:79-81 | after n pages the next page parameter is n exactly when the table holds at least 10n rows, otherwise there is none |
| `FeedPosts.FeedRunsToTheEnd` | src/hooks/usePosts.ts:79-81 | the feed ends after N/10+1 pages: they hold the whole table; every earlier step had a next page; the last page has N mod 10 rows (empty when N is a multiple of 10) |
| `FeedPosts.TwentyThreePosts` | src/hooks/usePosts.ts:79-81 | with 23 posts: pages of 10, 10 and 3 rows; a next page after one and after two pages; none after three |
| `FeedPosts.PagesDisjoint` | src/hooks/usePosts.ts:43-51 | two different pages read from one table state with unique ids share no post |
| `FeedPosts.InsertBetweenFetchesRepeatsRow` | src/hooks/usePosts.ts:43-51 | one post created between the fetches of pages p and p+1 makes page p+1 start with the last row of page p |
| `FeedPosts.Aggregate` | src/hooks/usePosts.ts:58-73 | the record keeps the row, always fills both counts and the like flag, never counts more than the tables hold, shows a like only for the viewer's existing like row, and joins only the author's own profile columns |
| `FeedPosts.AggregateMatchesTables` | src/hooks/usePosts.ts:58-73 | when no lookup of a post fails: the counts are the table counts; is_liked holds iff the viewer's like row exists; the profile is present iff the author has a row, and then holds the author's username, full name and avatar |
| `FeedPosts.AnonymousViewerNeverLikes` | src/hooks/usePosts.ts:62-64 | without a viewer, no like lookup is issued and the post reads as not liked |
| `FeedPosts.FailedLookupsReadAsDefaults` | src/hooks/usePosts.ts:69-71 | failed profile and count lookups do not fail the post: the counts read 0 and the profile reads null |
| `FeedPosts.FetchFeedPage` | src/hooks/usePosts.ts:42-77 | only a failed window read fails a page; a page holds at most 10 posts; post k of page p is table row 10p+k with its author, counts and like flag aggregated as `Aggregate` says |
| `FeedPosts.FetchPost` | src/hooks/usePosts.ts:105-135 | succeeds iff the row read succeeds and finds the id; the record is the row aggregated as in the feed |
| `FeedPosts.FetchComments` | src/hooks/usePosts.ts:139-165 | succeeds iff the comment read succeeds; lists exactly the post's comments, oldest first, each joined with its author's username and avatar from `Store.ProfileSummaryOf`, or null when that lookup fails or finds no row |
| `FeedPosts.FetchUserPosts` | src/hooks/usePosts.ts:86-100 | succeeds iff the read succeeds; lists exactly the user's posts, every one of them, in table order (newest first), as `Store.PostsBy` and `Store.PostsByConcat` state |
| `FeedPosts.PostListStaleKeys` | src/hooks/usePosts.ts:205-208 | after a create or delete, a cached key is stale iff it starts with 'feed' or 'userPosts' |
| `FeedPosts.LikeStaleKeys` | src/hooks/usePosts.ts:250-253 | after a like toggle, a key is stale iff it starts with 'feed' or 'post' |
| `FeedPosts.CommentStaleKeys` | src/hooks/usePosts.ts:285-289 | after a comment, a key is stale iff it starts with 'feed' or 'post', or is that post's comment list; no other post's comment list is stale |
| `FeedPosts.LikesAfterToggle` | src/hooks/usePosts.ts:235-238 | after the write the viewer's like on the post exists iff the request said not liked; every other like is unchanged |
| `FeedPosts.PostNotification` | src/hooks/usePosts.ts:241-246 | an unread notification to the post's owner naming the actor and the post; for a like or comment by someone other than the owner it is a notification the store accepts |
| `FeedPosts.CreatePost` | src/hooks/usePosts.ts:173-208 | succeeds iff there is a user, the upload gave a URL, the insert succeeded and the id is new. With no user it fails before any write. Otherwise the upload goes to `<user>/<now>.<ext>`; a failed upload or insert fails and changes nothing; success prepends the new row and marks the post lists stale. Nothing else changes |
| `FeedPosts.DeletePost` | src/hooks/usePosts.ts:216-223 | a successful delete removes the rows with that id and marks the post lists stale; a failed one changes nothing |
| `FeedPosts.ToggleLike` | src/hooks/usePosts.ts:232-253 | no user fails with no write. A liked post deletes only the viewer's like and writes no notification. An unliked post inserts the like, then notifies the owner iff the owner is not the viewer. Write errors are ignored, so a signed-in toggle always succeeds |
| `FeedPosts.AddComment` | src/hooks/usePosts.ts:262-289 | no user fails with no write. A failed insert fails before any notification. Success appends the comment row and notifies the owner iff the owner is not the author |
| `FeedPosts.NewCommentListedLast` | src/hooks/usePosts.ts:143-147 | a new comment is the last entry of its post's list, after the entries the list already had, and the post's comment count grows by one |
| `ProfileHooks.FetchCurrentProfile` | src/hooks/useProfile.ts:18-35 | null with no user or no row; fails iff the read fails; otherwise the user's own row |
| `ProfileHooks.CurrentProfileReadNeedsUser` | src/hooks/useProfile.ts:21-33 | the read is enabled iff someone is signed in, and with nobody signed in the read would give null anyway |
| `ProfileHooks.FetchProfileByUsername` | src/hooks/useProfile.ts:37-51 | fails iff the read fails or several rows carry the name; null iff no row carries it; otherwise a row with that username |
| `ProfileHooks.FetchFollowCounts` | src/hooks/useProfile.ts:75-90 | followers counts edges into the user and following counts edges out of it; each count reads 0 when its read fails |
| `ProfileHooks.FetchIsFollowing` | src/hooks/useProfile.ts:92-109 | true only when the viewer's edge to the target exists; true whenever that edge exists and its read succeeds; false with no user and false when the edge read fails (`!!data`) |
| `ProfileHooks.FollowsAfterToggle` | src/hooks/useProfile.ts:119-122 | after the write the (user, target) edge exists iff the request said not following; every other edge is unchanged |
| `ProfileHooks.FollowToggleRoundTrip` | src/hooks/useProfile.ts:116-122 | toggling from the true state, then toggling back, restores the follows table |
| `ProfileHooks.FollowToggleMovesCounts` | src/hooks/useProfile.ts:79-86 | a toggle from the true state moves the target's follower count and the user's following count by one, in the toggle's direction |
| `ProfileHooks.FollowStaleKeys` | src/hooks/useProfile.ts:131-135 | after a follow toggle, a key is stale iff it is any follow-edge read, or the count read of the target or of the user |
| `ProfileHooks.ToggleFollow` | src/hooks/useProfile.ts:116-135 | no user fails with no write. Following deletes only the (user, target) edge with no notification. Not following inserts the edge and always writes a follow notification without a post id, with no self-check |
| `ProfileHooks.ApplyUpdateIdempotent` | src/hooks/useProfile.ts:60-65 | saving the same update twice leaves the row as saving it once |
| `ProfileHooks.ApplyUpdate` | src/hooks/useProfile.ts:60-65 | the row keeps its user id, takes the update's username, full name, bio and website, and takes the update's avatar when it carries one, keeping the old avatar otherwise |
| `ProfileHooks.ProfileStaleKeys` | src/hooks/useProfile.ts:69-71 | after a profile update, a key is stale iff it starts with 'profile' |
| `ProfileHooks.UpdateProfile` | src/hooks/useProfile.ts:58-72 | no user fails with no write; a missing row or a failed write fails with nothing changed; success rewrites only the user's row and marks the profile reads stale |
| `PostCardView.ToggleTwiceRestores` | src/components/post/PostCard.tsx:34-36 | two optimistic toggles restore the (isLiked, likesCount) pair |
| `PostCardView.OptimisticToggleMatchesStore` | src/components/post/PostCard.tsx:34-37 | a view that agreed with the tables still agrees with them after the click and its successful write: heart and count both |
| `PostCardView.CommentsLinkIffComments` | src/components/post/PostCard.tsx:181 | the comments link shows iff the count read succeeded and the post has comments |
| `PostCardView.ShowsPostButton` | src/components/post/PostCard.tsx:208 | the Post button shows iff the box holds some character that is not white space |
| `PostCardView.PostCard.constructor` | src/components/post/PostCard.tsx:26-30 | local state starts from is_liked (false if absent) and likes_count (0 if absent), with an empty box |
| `PostCardView.PostCard.HandleLike` | src/components/post/PostCard.tsx:32-38 | no user changes nothing and sends nothing; otherwise the view flips, the count follows, and the pre-click state is sent |
| `PostCardView.PostCard.HandleDoubleClick` | src/components/post/PostCard.tsx:40-47 | no user or an already filled heart changes nothing; otherwise it likes, shows the burst and sends an insert, so a repeat does nothing |
| `PostCardView.PostCard.HeartTimeout` | src/components/post/PostCard.tsx:46 | the timer hides the burst and changes nothing else |
| `PostCardView.PostCard.ToggleSaved` | src/components/post/PostCard.tsx:151 | the bookmark flips its local flag only |
| `PostCardView.PostCard.SetComment` | src/components/post/PostCard.tsx:205 | typing sets the box and nothing else |
| `PostCardView.PostCard.HandleComment` | src/components/post/PostCard.tsx:49-54 | sends iff there is a user and the box is not blank; sends the untrimmed text and clears the box; otherwise the box is kept |
| `PostDetailView.DisplayedLikeMatchesTables` | src/pages/PostDetail.tsx:86-87 | the heart and count shown come from the loaded post and, with its lookups intact, agree with the tables |
| `PostDetailView.PostReadsNeedRouteId` | src/pages/PostDetail.tsx:20-24 | the post and comment reads run iff the route carries a non-empty post id |
| `PostDetailView.DisplayedLike` | src/pages/PostDetail.tsx:86-87 | the heart shown is filled iff the loaded post reads as liked, and the count shown is the loaded likes_count, 0 when it is missing |
| `PostDetailView.ClickRequest` | src/pages/PostDetail.tsx:42-47 | a click sends the post's id and owner and the local pre-click like state |
| `PostDetailView.SeedAtMount` | src/pages/PostDetail.tsx:30-40 | the local like state is the loaded post's like state only if the post was there on the first render; otherwise it is not liked with 0 |
| `PostDetailView.PostDetailPage.constructor` | src/pages/PostDetail.tsx:29-40 | the page starts with an empty comment box, not saved, and the like state `SeedAtMount` gives for the post present at the first render |
| `PostDetailView.FirstClickAfterLoadDoesNotUnlike` | src/pages/PostDetail.tsx:30-47 | a page opened before its liked post loaded shows a filled heart, yet its first click sends "not liked", leaving the like in place; only the second click removes it |
| `PostDetailView.ResyncedClickRequest` | src/pages/PostDetail.tsx:42-47 | a click whose local state is taken from the loaded post sends isLiked iff the post reads as liked |
| `PostDetailView.ResyncedClickFlipsStoredLike` | src/pages/PostDetail.tsx:42-47 | with the local state taken from the loaded post, every click flips the stored like, and the tables after the write agree with the optimistic view |
| `PostDetailView.DeleteOfferedToOwnerOnly` | src/pages/PostDetail.tsx:134 | the detail page and a card with a delete handler offer delete to the same viewers, the owner only; a card without a handler never does |
| `PostDetailView.PostDetailPage.HandleLike` | src/pages/PostDetail.tsx:42-48 | without a user or a loaded post nothing happens; otherwise the local view flips and the local pre-click state is sent with the owner id |
| `PostDetailView.PostDetailPage.HandleComment` | src/pages/PostDetail.tsx:50-55 | sends iff the box is not blank and there are a user and a post; sends the untrimmed text and clears the box |
| `PostDetailView.PostDetailPage.SetComment` | src/pages/PostDetail.tsx:252 | typing sets the box and nothing else |
| `PostDetailView.PostDetailPage.ToggleSaved` | src/pages/PostDetail.tsx:228 | the bookmark flips its local flag only |
| `PostDetailView.PostDetailPage.HandleDelete` | src/pages/PostDetail.tsx:57-61 | without a post nothing happens; navigation home happens iff the delete resolved successfully, and only then are the post's rows gone |
| `HomeFeed.DisplayedPosts` | src/pages/Home.tsx:31 | nothing before the first page, otherwise the concatenation of the loaded pages |
| `HomeFeed.FlattenLength` | src/pages/Home.tsx:31 | the list is as long as all loaded pages together |
| `HomeFeed.FlattenPlacesPages` | src/pages/Home.tsx:31 | item i of page p sits in the list right after all items of the earlier pages: the list keeps page order |
| `HomeFeed.FeedCards` | src/pages/Home.tsx:57-60 | one card per post in list order; only the last card carries the observer ref |
| `HomeFeed.DeletedPostLeavesFeed` | src/pages/Home.tsx:67 | after a delete and a refetch of the feed, no loaded page shows the deleted post |
| `HomeFeed.AtMostOneLive` | src/pages/Home.tsx:18-20 | at most one observer watches, and it is the one held in the ref; none watches when none is connected |
| `HomeFeed.FeedScreen.LastPostRef` | src/pages/Home.tsx:15-29 | a callback built while fetching (the `isFetchingNextPage` its render captured) changes nothing. Otherwise the previous observer is disconnected, and a new one watches the node (nothing for null), is held in the ref and keeps the hasNextPage that render captured |
| `HomeFeed.FeedScreen.Commit` | src/pages/Home.tsx:15-60 | after a render is committed the last card holds that render's callback; while a fetch is in flight no observer watches, because the previous callback was called with null and the new one returned early; otherwise the live observer watches the last card with the current hasNextPage |
| `HomeFeed.FeedScreen.constructor` | src/pages/Home.tsx:11-13 | the screen starts with its first page, not fetching, with no observer and no callback handed out |
| `HomeFeed.FeedScreen.OnIntersect` | src/pages/Home.tsx:20-24 | the next page is asked for iff the live observer's entry intersects and it saw a next page; isFetchingNextPage is not consulted |
| `HomeFeed.FeedScreen.PageArrived` | src/pages/Home.tsx:31 | the new page is appended, and the displayed list grows by exactly that page at its end |
| `HomeFeed.FeedScreen.DeleteCard` | src/pages/Home.tsx:65-68 | a card's delete deletes the post that card shows |
| `HomeFeed.InFlightFetchIsNotRepeated` | src/pages/Home.tsx:15-29 | with a full first page, an intersection starts a fetch; after the fetching render is committed a second intersection makes no request: one request in all |
| `HomeFeed.FetchResumesAfterPageArrives` | src/pages/Home.tsx:15-29 | once the second page arrives and is rendered, the next intersection makes a second request |
| `ProfilePage.ProfileControls` | src/pages/Profile.tsx:90-109 | the owner gets edit and sign-out, everyone else the follow button. The button reads 'Following' iff following, and is disabled iff the toggle is pending |
| `ProfilePage.FollowRequestFor` | src/pages/Profile.tsx:52-57 | the request targets the profile's user and carries isFollowing, an unknown state counting as false |
| `ProfilePage.EdgeReadWhereButtonShows` | src/hooks/useProfile.ts:107 | the follow-edge read is enabled exactly where a signed-in viewer sees the follow button |
| `ProfilePage.ReadsWaitForProfile` | src/pages/Profile.tsx:16-22 | the profile read runs iff the route username is non-empty; the counts and posts reads iff a profile with a user id has loaded; the edge read iff, in addition, a viewer is signed in and it is not the viewer's own profile |
| `ProfilePage.FollowButtonNeverTargetsSelf` | src/pages/Profile.tsx:26 | a follow request sent from the button never targets the viewer |
| `ProfilePage.FollowClickFlipsLabel` | src/pages/Profile.tsx:52-57 | when the edge read succeeded, a click followed by a successful write and a refetch flips the button label |
| `ProfilePage.ProfileStats` | src/pages/Profile.tsx:115-123 | missing posts or counts show 0, otherwise the loaded numbers |
| `ProfilePage.StatsMatchTables` | src/pages/Profile.tsx:115-123 | with the reads intact, the numbers are the user's post count, follower count and following count in the tables |
| `ProfilePage.WebsiteHref` | src/pages/Profile.tsx:138 | the link starts with 'http'; a value starting with 'http' is kept; any other value gets 'https://' in front |
| `ProfilePage.WebsiteDisplay` | src/pages/Profile.tsx:143 | one leading 'https://' or 'http://' is removed; the rest is a suffix of the value; a value without a scheme is shown as stored |
| `ProfilePage.DisplayOfHrefIsDisplay` | src/pages/Profile.tsx:138-143 | the text shown for the link target equals the text shown for the stored value |
| `ProfilePage.HttpPrefixedHostStaysRelative` | src/pages/Profile.tsx:138 | the stored value 'httpbin.org' is used as the link unchanged, which has no scheme |
| `ProfilePage.WebsiteHrefWithScheme` | src/pages/Profile.tsx:138 | the link always has a scheme, keeps a value that has one, and shows the same text as the stored value |
| `CreatePostDialog.TrimmedOrAbsent` | src/components/post/CreatePostModal.tsx:48-49 | absent iff the text is blank; otherwise the trim of the text, so non-empty, already trimmed and no longer than the input |
| `CreatePostDialog.ShareRequest` | src/components/post/CreatePostModal.tsx:46-50 | the request carries the selected file and the trimmed-or-absent caption and location |
| `CreatePostDialog.TrimmedFieldsAreStable` | src/components/post/CreatePostModal.tsx:48-49 | trimming what is sent again sends the same value |
| `CreatePostDialog.CreatePostModal.constructor` | src/components/post/CreatePostModal.tsx:16-20 | the dialog opens at the select step with everything empty |
| `CreatePostDialog.CreatePostModal.HandleFileSelect` | src/components/post/CreatePostModal.tsx:25-40 | refused iff a file is given and its type does not start with 'image/'. No file or a refused file changes nothing. An image is held and previewed, and moves the dialog to the edit step |
| `CreatePostDialog.CreatePostModal.SetCaption` | src/components/post/CreatePostModal.tsx:149-151 | the caption holds the first 2200 characters typed |
| `CreatePostDialog.CreatePostModal.SetLocation` | src/components/post/CreatePostModal.tsx:158 | typing sets the location only |
| `CreatePostDialog.CreatePostModal.HandleClose` | src/components/post/CreatePostModal.tsx:65-72 | back to the select step with file, preview, caption and location cleared |
| `CreatePostDialog.CreatePostModal.HandleShare` | src/components/post/CreatePostModal.tsx:42-63 | without a file nothing is sent. Otherwise the file and trimmed fields are sent; success resets the dialog and failure keeps what was entered |
| `EditProfileDialog.FormFromProfile` | src/components/profile/EditProfileModal.tsx:37-45 | the form takes the profile's fields, with null fields read as '' |
| `EditProfileDialog.ChosenAvatar` | src/components/profile/EditProfileModal.tsx:63-80 | the uploaded URL when a new file was stored; otherwise the profile's current avatar; left out when no profile is loaded |
| `EditProfileDialog.AvatarKeptWithoutNewFile` | src/components/profile/EditProfileModal.tsx:63 | without a new file the saved row keeps the avatar it had |
| `EditProfileDialog.UneditedFormSavesSameRow` | src/components/profile/EditProfileModal.tsx:36-46 | saving the unedited form keeps username and avatar and writes every null text field as ''; a row with no null fields is saved unchanged |
| `EditProfileDialog.EditProfileModal.constructor` | src/components/profile/EditProfileModal.tsx:26-34 | the dialog opens with an empty form, no avatar file, no preview and not submitting |
| `EditProfileDialog.EditProfileModal.LoadProfile` | src/components/profile/EditProfileModal.tsx:36-46 | a loaded profile fills the form and the preview; no profile changes nothing |
| `EditProfileDialog.EditProfileModal.SetUsername` | src/components/profile/EditProfileModal.tsx:190-195 | the username field holds the typed text lower-cased with all white space removed |
| `EditProfileDialog.EditProfileModal.SetFullName` | src/components/profile/EditProfileModal.tsx:180 | typing sets the full name and nothing else |
| `EditProfileDialog.EditProfileModal.SetBio` | src/components/profile/EditProfileModal.tsx:205-207 | the bio holds the first 150 characters typed, all of them when there are no more than 150 |
| `EditProfileDialog.EditProfileModal.SetWebsite` | src/components/profile/EditProfileModal.tsx:218 | typing sets the website and nothing else |
| `EditProfileDialog.EditProfileModal.SelectAvatar` | src/components/profile/EditProfileModal.tsx:48-54 | a picked file is held and previewed, with no type check; no file changes nothing |
| `EditProfileDialog.EditProfileModal.HandleSubmit` | src/components/profile/EditProfileModal.tsx:56-102 | no user does nothing. A new file is uploaded to `<user>/<now>.<ext>`, and a failed upload stops before the update. Otherwise the form and chosen avatar are sent; the dialog closes only on a successful save; isSubmitting ends false |
| `Store.UploadPath` | src/hooks/usePosts.ts:177-178 | the path starts with `<user id>/`, ends with '.' followed by the text after the last '.' of the file name, and between the two holds the decimal of `now` |
| `Store.RangeRows` | src/hooks/usePosts.ts:43-51 | the rows at positions from..to inclusive, clipped to the table: row k of the result is table row from+k |
| `Store.PostWithId` | src/hooks/usePosts.ts:109 | a row found has the id and is in the table; none found means no row has the id |
| `Store.PostsBy` | src/hooks/usePosts.ts:90-94 | every listed row is in the table and is the user's, and every row of the user is listed |
| `Store.PostsByConcat` | src/hooks/usePosts.ts:90-94 | the user's rows of a concatenation are those of each part in turn, so table order is kept |
| `Store.CommentsOn` | src/hooks/usePosts.ts:143-147 | every listed comment is in the table and on the post, and every comment on the post is listed |
| `Store.CommentsOnConcat` | src/hooks/usePosts.ts:143-147 | the post's comments of a concatenation are those of each part in turn, so oldest-first order is kept |
| `Store.CommentsOnAppend` | src/hooks/usePosts.ts:143-147 | a comment appended to the table is last in its own post's list and leaves every other post's list unchanged |
| `Store.NotificationsTo` | src/pages/Notifications.tsx:36-40 | every listed notification is in the table and addressed to the user, and every notification to the user is listed |
| `Store.NotificationsToConcat` | src/pages/Notifications.tsx:36-40 | the user's notifications of a concatenation are those of each part in turn, so newest-first order is kept |
| `Store.WithoutPost` | src/hooks/usePosts.ts:217 | a row remains iff it was in the table with another id; unique ids stay unique |
| `Text.LastDot` | src/hooks/usePosts.ts:177 | the index of the last '.' of the name, -1 exactly when it has none, with no '.' at any later position |
| `Text.AfterLastDot` | src/hooks/usePosts.ts:177 | the last '.'-separated segment: a suffix of the name with no '.' in it, the whole name when it has none |
| `Text.Trim` | src/components/post/CreatePostModal.tsx:48 | the result is empty iff the text is blank, otherwise starts and ends with a non-space, and it is the text itself when that is already trimmed |
| `Text.TrimIsBlankCut` | src/components/post/CreatePostModal.tsx:48 | the result is a window of the text with only white space before and after it; with `Trim`'s own clauses this fixes it as the text with a blank run cut off each end |
| `Text.SanitizeUsername` | src/pages/Auth.tsx:138 | the result has no white space and no capital letter and is no longer than the input; its content is fixed by `SanitizeOneChar`, `SanitizeConcat` and `SanitizeKeepsOthers` |
| `Text.SanitizeOneChar` | src/pages/Auth.tsx:138 | one typed character is kept lower-cased, or dropped when it is white space |
| `Text.SanitizeConcat` | src/pages/Auth.tsx:138 | sanitising a concatenation is the concatenation of the sanitised parts, so the kept characters stay in typed order |
| `Text.SanitizeKeepsOthers` | src/pages/Auth.tsx:138 | every non-space character occurs in the result as often as in the lower-cased input |
| `Text.RemoveSpaces` | src/pages/Auth.tsx:138 | the result has no white space, holds only characters of the input, and is the input itself when it has none |
| `Text.RemoveSpacesKeepsOthers` | src/pages/Auth.tsx:138 | every non-space character occurs in the result as often as in the input |
| `Text.RemoveSpacesConcat` | src/pages/Auth.tsx:138 | removing white space from a concatenation removes it from each part, keeping the order |
| `Text.SanitizeIdempotent` | src/pages/Auth.tsx:138 | sanitising a sanitised username changes nothing |
| `Text.SanitizedIsTrimmed` | src/pages/Auth.tsx:138 | a sanitised username is its own trim, so it is blank exactly when it is empty |
| `AuthPage.SubmitCall` | src/pages/Auth.tsx:41-65 | login mode calls sign-in with email and password only. Signup mode makes no call iff the username is blank, and otherwise signs up with all four fields |
| `AuthPage.SubmitToast` | src/pages/Auth.tsx:43-77 | the toasts: 'Username required' when no call was made; 'Login failed' or 'Sign up failed' for a failed call; 'Check your email' after a successful sign-up; none after a successful sign-in |
| `AuthPage.EveryOutcomeIsReported` | src/pages/Auth.tsx:41-77 | every submit except a successful sign-in ends in a toast; 'Username required' only in signup mode |
| `AuthPage.SignUpCarriesUsername` | src/pages/Auth.tsx:51-65 | with a sanitised field, the guard stops exactly the empty username, and every sign-up sends a non-empty username with no white space or capitals |
| `AuthPage.AuthForm.constructor` | src/pages/Auth.tsx:13-22 | the page opens in login mode with an empty form |
| `AuthPage.AuthForm.ToggleMode` | src/pages/Auth.tsx:204-207 | the mode flips and all four fields are reset to '' |
| `AuthPage.AuthForm.SetUsername` | src/pages/Auth.tsx:137-138 | the username field holds the sanitised text |
| `AuthPage.AuthForm.SetEmail` | src/pages/Auth.tsx:153-154 | typing sets the email and nothing else |
| `AuthPage.AuthForm.SetPassword` | src/pages/Auth.tsx:167-168 | typing sets the password and nothing else |
| `AuthPage.AuthForm.SetFullName` | src/pages/Auth.tsx:125-126 | typing sets the full name and nothing else |
| `AuthPage.AuthForm.HandleSubmit` | src/pages/Auth.tsx:36-82 | makes the mode's call and raises the matching toast; isSubmitting is false again on every path; the typed form is kept |
| `NotificationsPage.LoadNotifications` | src/pages/Notifications.tsx:31-74 | no user gives an empty list; a failed read fails. Otherwise the viewer's notifications, newest first, at most 50, are each joined with their actor and post |
| `Store.ProfileSummaryOf` | src/pages/Notifications.tsx:49-53 | the username and avatar of the user's profile row, or null exactly when the lookup fails or finds no row; the same join serves the comment list (usePosts.ts:150-157) |
| `NotificationsPage.PostImage` | src/pages/Notifications.tsx:54-60 | there is no lookup without a post id; otherwise the post's image, or null when the lookup fails or finds nothing |
| `NotificationsPage.ListedAreAddressedToViewer` | src/pages/Notifications.tsx:39 | every listed notification is addressed to the viewer |
| `NotificationsPage.NewNotificationListedFirst` | src/pages/Notifications.tsx:36-40 | a notification just written is the first one its recipient's page lists, and it is shown highlighted iff it is unread (the tint of Notifications.tsx line 135) |
| `NotificationsPage.NotificationIcon` | src/pages/Notifications.tsx:76-87 | heart, comment bubble and follow icon exactly for like, comment and follow |
| `NotificationsPage.NotificationText` | src/pages/Notifications.tsx:89-100 | the text is empty exactly for an unknown kind |
| `NotificationsPage.LinkTarget` | src/pages/Notifications.tsx:128-133 | a follow links to the actor's profile ('undefined' when the actor is missing); any other kind links to the post ('null' without a post id) |
| `NotificationsPage.ListedEntriesRenderFully` | src/pages/Notifications.tsx:76-133 | for stored notifications, every entry has an icon and a text, like and comment entries link to their post, and a follow entry with a loaded actor links to the actor's profile |

## Left out

- Supabase itself:
  - The PostgREST queries, storage upload and `getPublicUrl` are replaced by the row store.
  - `count: 'exact'` is replaced by exact counts over the store.
  - The store's own constraints are replaced by the outcome parameters; the one exception is a duplicate post id, which `CreatePost` refuses.
- The react-query machinery:
  - caching, refetching, request coalescing, `isPending`/`isLoading`, and the `Promise.all` fan-out and its concurrency;
  - `enabled` flags are modelled as predicates (stated by `ProfileHooks.CurrentProfileReadNeedsUser`, `ProfilePage.ReadsWaitForProfile`, `ProfilePage.EdgeReadWhereButtonShows` and `PostDetailView.PostReadsNeedRouteId`) and query keys as data, nothing more.
- `fetchNextPage` is counted as one request per call (`fetchCalls`); what react-query does with a call made while a fetch is in flight is not modelled.
- React's handling of the callback ref is reduced to `HomeFeed.FeedScreen.Commit`: one callback on the last card, called with null and then re-attached when the callback or the card changes. StrictMode's double calls and the timing of commits against intersection reports are not modelled.
- The race between optimistic local state and a refetch is concurrency and is not modelled. The client has no rollback code to model.
- `Date.now()` is the `now` parameter. `URL.createObjectURL` is an `objectUrl` parameter. The one-second timer becomes the `HeartTimeout` method.
- Also out:
  - `formatDistanceToNow`, `toLocaleString` and all animation values;
  - JSX, CSS, routing, the auth redirect and the loading screens.
- The search page, navigation bar, layout, stories bar, skeleton and create-route wrapper are not part of this model.
- The profile page's `showEditModal` flag is not modelled: it only opens and closes the dialog. The website link shown only for a non-empty website is not modelled either.
- Browser form validation (`required`, `type="email"`) is not modelled; only the submit handlers' own checks are.
- `Text.ToLower`: only ASCII capitals are lowered. JavaScript's full Unicode case mapping is not modelled.
- `CreatePostDialog.CreatePostModal.SetCaption`: the 2200 limit is counted in characters of the model's strings. The browser counts UTF-16 code units, so the two differ for characters outside the Basic Multilingual Plane.
- `CreatePostDialog.CreatePostModal.HandleShare`: the awaited create is given as its outcome `shared` rather than being called. The request it returns is what `FeedPosts.CreatePost` receives.
- `EditProfileDialog.EditProfileModal.SetBio`: the 150 limit is counted in characters of the model's strings, not in UTF-16 code units.
- `EditProfileDialog.EditProfileModal.HandleSubmit`:
  - The busy flag's value between the start and the end of the submit is not observable in the model.
  - The toasts are summed up in the returned outcome.
- `AuthPage.AuthForm.HandleSubmit`: the auth service is given as `callFailed` only, so its error message is not modelled.
- `ProfileHooks.FetchProfileByUsername` is a ghost function: it picks the matching row when exactly one exists.

Where the code does something a reader might not expect, the model follows the code:

- A failed count lookup reads as 0, and a failed profile lookup reads as null. The post is still listed.
- A follow notification is written even when the target is the viewer.
- A table with a multiple of ten posts costs one extra, empty page fetch.
- Offset paging shows a row twice when a post is created between two page fetches (`FeedPosts.InsertBetweenFetchesRepeatsRow`), so pages are disjoint only against one table state.
- The load-more callback does not itself look at `isFetchingNextPage`. What stops a second request during a fetch is React's ref protocol: the fetching render builds a new `lastPostRef`, so React calls the previous one with null, which disconnects the live observer and leaves one that watches nothing, and the new one returns early (`HomeFeed.FeedScreen.Commit`, `HomeFeed.InFlightFetchIsNotRepeated`). An intersection reported before that render is committed still reaches the old observer.

## Findings

| source | as written | input that shows it | evidently intended | confidence | as-written member | corrected member |
|---|---|---|---|---|---|---|
| src/pages/PostDetail.tsx:30-47 | the local like state is seeded by a `useState` initializer that runs on the first render only, while the heart shown comes from the loaded post | open the page of a post the viewer has liked before it has loaded; the heart shows filled, the first click sends isLiked=false, the like stays, and on someone else's post another like notification is written | a click flips the like state the page shows | not executed | `PostDetailView.FirstClickAfterLoadDoesNotUnlike` | `PostDetailView.ResyncedClickFlipsStoredLike` |
| src/pages/Profile.tsx:138 | the link keeps any website that starts with 'http' | website 'httpbin.org': the link is the relative path 'httpbin.org' | only a value with an 'http://' or 'https://' scheme is kept; any other value gets 'https://' | not executed | `ProfilePage.HttpPrefixedHostStaysRelative` | `ProfilePage.WebsiteHrefWithScheme` |
