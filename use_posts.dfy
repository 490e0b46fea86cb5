/** The post hooks: the paged feed, the aggregated post record, the comment
    and per-user lists, and the create, delete, like and comment writes with
    the cache keys each declares stale. */
module FeedPosts {
  import opened Wrappers
  import opened Text
  import opened Store
  import opened QueryKeys

  const PostsPerPage: nat := 10

  // ---------------------------------------------------------------------
  // Paging

  /** The inclusive window `range(from, to)` that page `pageParam` reads. */
  function PageWindow(pageParam: nat): (nat, nat) {
    var from := pageParam * PostsPerPage;
    (from, from + PostsPerPage - 1)
  }

  /** Every window holds ten rows, each starts right after the previous one
      ends, and row `i` falls in the window of page `i / 10` and no other. */
  lemma WindowsTile(p: nat)
    ensures PageWindow(p).1 - PageWindow(p).0 + 1 == PostsPerPage
    ensures PageWindow(p).1 + 1 == PageWindow(p + 1).0
    ensures forall i: nat :: PageWindow(p).0 <= i <= PageWindow(p).1 <==> i / PostsPerPage == p
  {
  }

  /** The rows of page `pageParam`, from the posts table newest first. */
  function FeedPageRows(posts: seq<PostRow>, pageParam: nat): seq<PostRow> {
    RangeRows(posts, PageWindow(pageParam).0, PageWindow(pageParam).1)
  }

  /** `getNextPageParam`: another page exists only after a full page, and
      its parameter is the number of pages loaded so far. */
  function NextPageParam<T>(lastPage: seq<T>, allPages: seq<seq<T>>): (r: Option<nat>)
    ensures r.Some? <==> |lastPage| == PostsPerPage
    ensures r.Some? ==> r.value == |allPages|
  {
    if |lastPage| == PostsPerPage then Some(|allPages|) else None
  }

  /** What the infinite query reports as `hasNextPage`. */
  predicate HasNextPage<T>(pages: seq<seq<T>>)
    ensures HasNextPage(pages) <==> pages != [] && |pages[|pages| - 1]| == PostsPerPage
  {
    |pages| > 0 && NextPageParam(pages[|pages| - 1], pages).Some?
  }

  /** `pages.flat()`: the loaded pages one after the other. */
  function Flatten<T>(pages: seq<seq<T>>): seq<T> {
    if pages == [] then [] else Flatten(pages[..|pages| - 1]) + pages[|pages| - 1]
  }

  /** The first `n` pages, fetched one after the other from page 0 (the
      initial page parameter) against one state of the table. */
  function LoadedPages(posts: seq<PostRow>, n: nat): (pages: seq<seq<PostRow>>)
    ensures |pages| == n
    ensures n > 0 ==> pages[n - 1] == FeedPageRows(posts, n - 1)
  {
    if n == 0 then [] else LoadedPages(posts, n - 1) + [FeedPageRows(posts, n - 1)]
  }

  /** Loading more pages leaves the earlier ones as they were: page `p` of
      any longer run is still the window of page `p`. */
  lemma {:induction false} LoadedPageIsWindow(posts: seq<PostRow>, n: nat, p: nat)
    requires p < n
    ensures LoadedPages(posts, n)[p] == FeedPageRows(posts, p)
  {
    if p < n - 1 {
      LoadedPageIsWindow(posts, n - 1, p);
      assert LoadedPages(posts, n)[p] == LoadedPages(posts, n - 1)[p];
    }
  }

  /** A page is the slice of the table between two clipped offsets. */
  lemma FeedPageSlice(posts: seq<PostRow>, p: nat)
    ensures Min(p * PostsPerPage, |posts|) <= Min(p * PostsPerPage + PostsPerPage, |posts|)
    ensures FeedPageRows(posts, p) == posts[Min(p * PostsPerPage, |posts|)..Min(p * PostsPerPage + PostsPerPage, |posts|)]
  {
  }

  /** Loading one more page appends that page to the concatenation. */
  lemma FlattenOneMorePage(posts: seq<PostRow>, n: nat)
    requires n > 0
    ensures Flatten(LoadedPages(posts, n)) == Flatten(LoadedPages(posts, n - 1)) + FeedPageRows(posts, n - 1)
  {
    var pages := LoadedPages(posts, n);
    assert pages == LoadedPages(posts, n - 1) + [FeedPageRows(posts, n - 1)];
    assert pages[..n - 1] == LoadedPages(posts, n - 1);
  }

  /** The newest `10 * n` rows of the table, or all of it when it is shorter. */
  function NewestRows(posts: seq<PostRow>, n: nat): seq<PostRow> {
    posts[..Min(n * PostsPerPage, |posts|)]
  }

  /** The newest rows through page `n - 1` are the newest rows before it
      followed by that page. */
  lemma PrefixOneMorePage(posts: seq<PostRow>, n: nat)
    requires n > 0
    ensures NewestRows(posts, n) == NewestRows(posts, n - 1) + FeedPageRows(posts, n - 1)
  {
    var lo := (n - 1) * PostsPerPage;
    assert n * PostsPerPage == lo + PostsPerPage;
    FeedPageSlice(posts, n - 1);
    var a := Min(lo, |posts|);
    var b := Min(lo + PostsPerPage, |posts|);
    assert posts[..b] == posts[..a] + posts[a..b];
  }

  /** The loaded pages concatenate to the newest rows of the table, in order. */
  lemma {:induction false} LoadedPagesArePrefix(posts: seq<PostRow>, n: nat)
    ensures Flatten(LoadedPages(posts, n)) == NewestRows(posts, n)
  {
    if n > 0 {
      FlattenOneMorePage(posts, n);
      LoadedPagesArePrefix(posts, n - 1);
      PrefixOneMorePage(posts, n);
    }
  }

  /** After `n` pages, a next page exists exactly while the table holds at
      least `10 * n` rows, and then its parameter is `n`. */
  lemma NextPageWhileRowsRemain(posts: seq<PostRow>, n: nat)
    requires n >= 1
    ensures var pages := LoadedPages(posts, n);
            NextPageParam(pages[n - 1], pages) == if n * PostsPerPage <= |posts| then Some(n) else None
  {
  }

  /** The feed ends after `|posts| / 10 + 1` pages: every earlier page was
      full, the last one is short (empty when the table holds a multiple of
      ten rows), and together they hold the whole table. */
  lemma {:induction false} FeedRunsToTheEnd(posts: seq<PostRow>)
    ensures var last := |posts| / PostsPerPage + 1;
            && Flatten(LoadedPages(posts, last)) == posts
            && !HasNextPage(LoadedPages(posts, last))
            && |LoadedPages(posts, last)[last - 1]| == |posts| % PostsPerPage
            && forall n :: 1 <= n < last ==> HasNextPage(LoadedPages(posts, n))
  {
    var last := |posts| / PostsPerPage + 1;
    LoadedPagesArePrefix(posts, last);
    assert NewestRows(posts, last) == posts;
    forall n | 1 <= n < last ensures HasNextPage(LoadedPages(posts, n)) {
      NextPageWhileRowsRemain(posts, n);
    }
    NextPageWhileRowsRemain(posts, last);
  }

  /** With 23 posts: pages of 10, 10 and 3 rows, and no fourth page. */
  lemma TwentyThreePosts(posts: seq<PostRow>)
    requires |posts| == 23
    ensures |FeedPageRows(posts, 0)| == 10 && |FeedPageRows(posts, 1)| == 10 && |FeedPageRows(posts, 2)| == 3
    ensures HasNextPage(LoadedPages(posts, 1)) && HasNextPage(LoadedPages(posts, 2))
    ensures !HasNextPage(LoadedPages(posts, 3))
  {
    FeedRunsToTheEnd(posts);
  }

  /** Pages read from one state of a table with unique ids share no post. */
  lemma PagesDisjoint(posts: seq<PostRow>, p: nat, q: nat)
    requires UniquePostIds(posts) && p != q
    ensures forall i, j :: 0 <= i < |FeedPageRows(posts, p)| && 0 <= j < |FeedPageRows(posts, q)|
                       ==> FeedPageRows(posts, p)[i].id != FeedPageRows(posts, q)[j].id
  {
    forall i, j | 0 <= i < |FeedPageRows(posts, p)| && 0 <= j < |FeedPageRows(posts, q)|
      ensures FeedPageRows(posts, p)[i].id != FeedPageRows(posts, q)[j].id
    {
      assert FeedPageRows(posts, p)[i] == posts[p * PostsPerPage + i];
      assert FeedPageRows(posts, q)[j] == posts[q * PostsPerPage + j];
    }
  }

  /** Offsets are positions, not cursors: one post created between the
      fetches of page `p` and page `p + 1` makes page `p + 1` start with the
      row that ended page `p`. */
  lemma InsertBetweenFetchesRepeatsRow(newest: PostRow, posts: seq<PostRow>, p: nat)
    requires |posts| >= (p + 1) * PostsPerPage
    ensures |FeedPageRows(posts, p)| == PostsPerPage
    ensures |FeedPageRows([newest] + posts, p + 1)| > 0
    ensures FeedPageRows([newest] + posts, p + 1)[0] == FeedPageRows(posts, p)[PostsPerPage - 1]
  {
  }

  // ---------------------------------------------------------------------
  // Aggregation

  /** The author summary joined onto a post. */
  datatype Author = Author(username: string, fullName: Option<string>, avatarUrl: Option<string>)

  /** The `Post` record: a row plus the optional fields the reads fill in. */
  datatype Post = Post(
    row: PostRow, profile: Option<Author>,
    likesCount: Option<nat>, commentsCount: Option<nat>, isLiked: Option<bool>)

  /** The lookups issued for one post: the like lookup only with a viewer. */
  function AggregationRequests(row: PostRow, viewer: Option<UserId>): seq<Request> {
    [ProfileOf(row.userId), LikeCountOf(row.id), CommentCountOf(row.id)]
    + (match viewer
       case Some(u) => [LikeBy(row.id, u)]
       case None => [])
  }

  /** `.eq('user_id', userId).single()` on `profiles`: `null` when the read
      fails or finds no row. */
  function AuthorOf(t: Tables, userId: UserId, failed: set<Request>): Option<Author> {
    if ProfileOf(userId) in failed || userId !in t.profiles then None
    else Some(AuthorRow(t.profiles[userId]))
  }

  /** The columns `profiles(username, full_name, avatar_url)` of a row. */
  function AuthorRow(p: ProfileRow): Author {
    Author(p.username, p.fullName, p.avatarUrl)
  }

  /** The record built for one row: the counts fall back to 0 when their read
      fails, and `is_liked` holds only when a like row for the viewer came back. */
  function Aggregate(t: Tables, row: PostRow, viewer: Option<UserId>, failed: set<Request>): (p: Post)
    ensures p.row == row
    ensures p.likesCount.Some? && p.likesCount.value <= LikeCount(t.likes, row.id)
    ensures p.commentsCount.Some? && p.commentsCount.value <= CommentCount(t.comments, row.id)
    ensures p.isLiked.Some? && (p.isLiked.value ==> viewer.Some? && Like(row.id, viewer.value) in t.likes)
    ensures p.profile.Some? ==> row.userId in t.profiles && p.profile.value == AuthorRow(t.profiles[row.userId])
  {
    Post(
      row,
      AuthorOf(t, row.userId, failed),
      Some(if LikeCountOf(row.id) in failed then 0 else LikeCount(t.likes, row.id)),
      Some(if CommentCountOf(row.id) in failed then 0 else CommentCount(t.comments, row.id)),
      Some(match viewer
           case None => false
           case Some(u) => LikeBy(row.id, u) !in failed && Like(row.id, u) in t.likes))
  }

  /** When none of its lookups fails, the record agrees with the tables. */
  lemma AggregateMatchesTables(t: Tables, row: PostRow, viewer: Option<UserId>, failed: set<Request>)
    requires forall k :: 0 <= k < |AggregationRequests(row, viewer)| ==> AggregationRequests(row, viewer)[k] !in failed
    ensures var p := Aggregate(t, row, viewer, failed);
            && p.row == row
            && p.likesCount == Some(LikeCount(t.likes, row.id))
            && p.commentsCount == Some(CommentCount(t.comments, row.id))
            && p.isLiked == Some(viewer.Some? && Like(row.id, viewer.value) in t.likes)
            && (p.profile.Some? <==> row.userId in t.profiles)
            && (p.profile.Some? ==> p.profile.value == AuthorRow(t.profiles[row.userId]))
  {
    assert AggregationRequests(row, viewer)[0] == ProfileOf(row.userId);
    assert AggregationRequests(row, viewer)[1] == LikeCountOf(row.id);
    assert AggregationRequests(row, viewer)[2] == CommentCountOf(row.id);
    if viewer.Some? {
      assert AggregationRequests(row, viewer)[3] == LikeBy(row.id, viewer.value);
    }
  }

  /** With no viewer, no like lookup is issued and the post reads as not liked. */
  lemma AnonymousViewerNeverLikes(t: Tables, row: PostRow, failed: set<Request>)
    ensures forall k :: 0 <= k < |AggregationRequests(row, None)| ==> !AggregationRequests(row, None)[k].LikeBy?
    ensures Aggregate(t, row, None, failed).isLiked == Some(false)
  {
  }

  /** A failed lookup does not fail the post: its count reads as 0 and its
      author as `null`. */
  lemma FailedLookupsReadAsDefaults(t: Tables, row: PostRow, viewer: Option<UserId>, failed: set<Request>)
    requires ProfileOf(row.userId) in failed && LikeCountOf(row.id) in failed && CommentCountOf(row.id) in failed
    ensures var p := Aggregate(t, row, viewer, failed);
            p.profile.None? && p.likesCount == Some(0) && p.commentsCount == Some(0)
  {
  }

  /** One page of `useFeedPosts`: the window read from `posts` newest first,
      each row aggregated; only a failed window read fails the page. */
  function FetchFeedPage(t: Tables, viewer: Option<UserId>, pageParam: nat, failed: set<Request>)
    : (r: Result<seq<Post>, Error>)
    ensures r.Success? <==> PostsRange(PageWindow(pageParam).0, PageWindow(pageParam).1) !in failed
    ensures r.Success? ==> |r.value| == |FeedPageRows(t.posts, pageParam)| <= PostsPerPage
    ensures r.Success? ==> forall k :: 0 <= k < |r.value| ==>
              r.value[k] == Aggregate(t, t.posts[pageParam * PostsPerPage + k], viewer, failed)
  {
    var w := PageWindow(pageParam);
    if PostsRange(w.0, w.1) in failed then Failure(ReadFailed)
    else
      var rows := FeedPageRows(t.posts, pageParam);
      Success(seq(|rows|, k requires 0 <= k < |rows| => Aggregate(t, rows[k], viewer, failed)))
  }

  /** `usePost` runs only for a non-empty id. */
  predicate PostQueryEnabled(postId: PostId) {
    postId != ""
  }

  /** `usePost`: the row must come back (a failed or empty read throws); the
      rest of the record is aggregated as in the feed. */
  function FetchPost(t: Tables, postId: PostId, viewer: Option<UserId>, failed: set<Request>)
    : (r: Result<Post, Error>)
    ensures r.Success? <==> PostById(postId) !in failed && PostWithId(t.posts, postId).Some?
    ensures r.Success? ==> r.value.row.id == postId && r.value.row in t.posts
    ensures r.Success? ==> r.value == Aggregate(t, r.value.row, viewer, failed)
  {
    if PostById(postId) in failed then Failure(ReadFailed)
    else
      match PostWithId(t.posts, postId)
      case None => Failure(NotFound)
      case Some(row) => Success(Aggregate(t, row, viewer, failed))
  }

  /** A comment with its author's username and avatar joined on. */
  datatype CommentView = CommentView(row: CommentRow, profile: Option<ProfileSummary>)

  /** `usePostComments`: the post's comments oldest first, each with its
      author or `null`. */
  function FetchComments(t: Tables, postId: PostId, failed: set<Request>): (r: Result<seq<CommentView>, Error>)
    ensures r.Success? <==> CommentsOf(postId) !in failed
    ensures r.Success? ==> |r.value| == |CommentsOn(t.comments, postId)|
    ensures r.Success? ==> forall k :: 0 <= k < |r.value| ==> r.value[k].row == CommentsOn(t.comments, postId)[k]
    ensures r.Success? ==> forall k :: 0 <= k < |r.value| ==>
              r.value[k].profile == ProfileSummaryOf(t, CommentsOn(t.comments, postId)[k].userId, failed)
  {
    if CommentsOf(postId) in failed then Failure(ReadFailed)
    else
      var rows := CommentsOn(t.comments, postId);
      Success(seq(|rows|, k requires 0 <= k < |rows| => CommentView(rows[k], ProfileSummaryOf(t, rows[k].userId, failed))))
  }

  /** `useUserPosts`: the user's posts newest first; it runs only for a non-empty id. */
  function FetchUserPosts(t: Tables, userId: UserId, failed: set<Request>): (r: Result<seq<PostRow>, Error>)
    ensures r.Success? <==> PostsOf(userId) !in failed
    ensures r.Success? ==> r.value == PostsBy(t.posts, userId)
    ensures r.Success? ==> forall k :: 0 <= k < |r.value| ==> r.value[k] in t.posts && r.value[k].userId == userId
    ensures r.Success? ==> forall x :: x in t.posts && x.userId == userId ==> x in r.value
  {
    if PostsOf(userId) in failed then Failure(ReadFailed) else Success(PostsBy(t.posts, userId))
  }

  predicate UserPostsEnabled(userId: UserId) {
    userId != ""
  }

  // ---------------------------------------------------------------------
  // Writes

  datatype CreatePostRequest = CreatePostRequest(imageFile: File, caption: Option<string>, location: Option<string>)
  datatype LikeRequest = LikeRequest(postId: PostId, isLiked: bool, postUserId: UserId)
  datatype CommentRequest = CommentRequest(postId: PostId, content: string, postUserId: UserId)

  /** The keys create and delete declare stale. */
  function PostListStale(): seq<QueryKey> { [[Str("feed")], [Str("userPosts")]] }

  /** The keys a like toggle declares stale. */
  function LikeStale(): seq<QueryKey> { [[Str("feed")], [Str("post")]] }

  /** The keys a new comment declares stale. */
  function CommentStale(postId: PostId): seq<QueryKey> { [[Str("comments"), Str(postId)], [Str("feed")], [Str("post")]] }

  /** After a create or delete, exactly the feed and every user's post list are stale. */
  lemma PostListStaleKeys(key: QueryKey)
    ensures Stale(PostListStale(), key) <==> |key| > 0 && (key[0] == Str("feed") || key[0] == Str("userPosts"))
  {
    StaleOfTwo([Str("feed")], [Str("userPosts")], key);
    PrefixOfOne(Str("feed"), key);
    PrefixOfOne(Str("userPosts"), key);
  }

  /** After a like toggle, exactly the feed and every single-post read are stale. */
  lemma LikeStaleKeys(key: QueryKey)
    ensures Stale(LikeStale(), key) <==> |key| > 0 && (key[0] == Str("feed") || key[0] == Str("post"))
  {
    StaleOfTwo([Str("feed")], [Str("post")], key);
    PrefixOfOne(Str("feed"), key);
    PrefixOfOne(Str("post"), key);
  }

  /** After a comment, the feed, every single-post read and that post's
      comment list are stale, and no other comment list is. */
  lemma CommentStaleKeys(postId: PostId, key: QueryKey)
    ensures Stale(CommentStale(postId), key)
       <==> |key| > 0 && (key[0] == Str("feed") || key[0] == Str("post")
                         || (|key| > 1 && key[0] == Str("comments") && key[1] == Str(postId)))
  {
    assert CommentStale(postId) == [[Str("comments"), Str(postId)]] + LikeStale();
    StaleCons([Str("comments"), Str(postId)], LikeStale(), key);
    LikeStaleKeys(key);
    PrefixOfTwo(Str("comments"), Str(postId), key);
  }

  /** The like table after a successful toggle write: the viewer's like
      removed when the post was liked, added otherwise. */
  function LikesAfterToggle(likes: set<Like>, userId: UserId, req: LikeRequest): (r: set<Like>)
    ensures (Like(req.postId, userId) in r) == !req.isLiked
    ensures forall l :: l != Like(req.postId, userId) ==> (l in r <==> l in likes)
  {
    if req.isLiked then likes - {Like(req.postId, userId)} else likes + {Like(req.postId, userId)}
  }

  /** `useCreatePost`: upload the image, then insert the row. The upload and
      the insert are gateway calls whose outcomes are given: `uploadedUrl` is
      the public URL of the stored file or `None` when the upload fails. */
  method CreatePost(db: Backend, user: Option<UserId>, req: CreatePostRequest, now: nat,
                    uploadedUrl: Option<string>, newId: PostId, insertOk: bool)
    returns (r: Result<PostRow, Error>, uploadPath: Option<string>, stale: seq<QueryKey>)
    requires db.Valid()
    modifies db
    ensures db.Valid()
    ensures user.None? ==> r == Failure(NotAuthenticated) && uploadPath.None?
    ensures user.Some? ==> uploadPath == Some(UploadPath(user.value, now, req.imageFile.name))
    ensures user.Some? && uploadedUrl.None? ==> r == Failure(UploadFailed)
    ensures user.Some? && uploadedUrl.Some? && (!insertOk || PostWithId(old(db.posts), newId).Some?)
            ==> r == Failure(WriteFailed)
    ensures r.Success? <==> user.Some? && uploadedUrl.Some? && insertOk && PostWithId(old(db.posts), newId).None?
    ensures r.Success? ==> r.value == PostRow(newId, user.value, uploadedUrl.value, req.caption, req.location)
    ensures r.Success? ==> db.posts == [r.value] + old(db.posts) && stale == PostListStale()
    ensures r.Failure? ==> db.posts == old(db.posts) && stale == []
    ensures db.profiles == old(db.profiles) && db.likes == old(db.likes) && db.comments == old(db.comments)
    ensures db.follows == old(db.follows) && db.notifications == old(db.notifications)
  {
    if user.None? {
      return Failure(NotAuthenticated), None, [];
    }
    uploadPath := Some(UploadPath(user.value, now, req.imageFile.name));
    if uploadedUrl.None? {
      return Failure(UploadFailed), uploadPath, [];
    }
    if !insertOk || PostWithId(db.posts, newId).Some? {
      return Failure(WriteFailed), uploadPath, [];
    }
    var row := PostRow(newId, user.value, uploadedUrl.value, req.caption, req.location);
    InsertKeepsIdsUnique(db.posts, row);
    db.posts := [row] + db.posts;
    r, stale := Success(row), PostListStale();
  }

  /** `useDeletePost`: delete the row by id. There is no identity check on
      the client. */
  method DeletePost(db: Backend, postId: PostId, deleteOk: bool) returns (r: Result<(), Error>, stale: seq<QueryKey>)
    requires db.Valid()
    modifies db
    ensures db.Valid()
    ensures r.Success? <==> deleteOk
    ensures deleteOk ==> db.posts == WithoutPost(old(db.posts), postId) && stale == PostListStale()
    ensures !deleteOk ==> db.posts == old(db.posts) && stale == []
    ensures db.profiles == old(db.profiles) && db.likes == old(db.likes) && db.comments == old(db.comments)
    ensures db.follows == old(db.follows) && db.notifications == old(db.notifications)
  {
    if !deleteOk {
      return Failure(WriteFailed), [];
    }
    db.posts := WithoutPost(db.posts, postId);
    r, stale := Success(()), PostListStale();
  }

  /** The unread notification a like or a comment writes to the post's
      owner; the writers call it only when the actor is not the owner. */
  function PostNotification(kind: string, postId: PostId, postUserId: UserId, actor: UserId): (n: NotificationRow)
    ensures n.userId == postUserId && n.actorId == actor && n.postId == Some(postId) && !n.isRead
    ensures (kind == LikeKind || kind == CommentKind) && actor != postUserId ==> WellFormedNotification(n)
  {
    NotificationRow(postUserId, actor, kind, Some(postId), false)
  }

  /** `useToggleLike`: delete or insert the viewer's like; after an insert,
      notify the owner unless the owner is the viewer. Neither write's
      error is looked at, so the toggle always succeeds once a user is present. */
  method ToggleLike(db: Backend, user: Option<UserId>, req: LikeRequest, likeWriteOk: bool, notifyWriteOk: bool)
    returns (r: Result<(), Error>, stale: seq<QueryKey>)
    requires db.Valid()
    modifies db
    ensures db.Valid()
    ensures user.None? ==> r == Failure(NotAuthenticated) && stale == [] && db.State() == old(db.State())
    ensures user.Some? ==> r.Success? && stale == LikeStale()
    ensures user.Some? ==> db.likes == if likeWriteOk then LikesAfterToggle(old(db.likes), user.value, req) else old(db.likes)
    ensures db.notifications
         == if user.Some? && !req.isLiked && req.postUserId != user.value && notifyWriteOk
            then [PostNotification(LikeKind, req.postId, req.postUserId, user.value)] + old(db.notifications)
            else old(db.notifications)
    ensures db.posts == old(db.posts) && db.profiles == old(db.profiles) && db.comments == old(db.comments)
    ensures db.follows == old(db.follows)
  {
    if user.None? {
      return Failure(NotAuthenticated), [];
    }
    var uid := user.value;
    if req.isLiked {
      if likeWriteOk {
        db.likes := db.likes - {Like(req.postId, uid)};
      }
    } else {
      if likeWriteOk {
        db.likes := db.likes + {Like(req.postId, uid)};
      }
      if req.postUserId != uid && notifyWriteOk {
        db.notifications := [PostNotification(LikeKind, req.postId, req.postUserId, uid)] + db.notifications;
      }
    }
    r, stale := Success(()), LikeStale();
  }

  /** `useAddComment`: insert the comment (its failure is thrown, before any
      notification), then notify the owner unless the owner is the author. */
  method AddComment(db: Backend, user: Option<UserId>, req: CommentRequest, newId: string,
                    insertOk: bool, notifyWriteOk: bool)
    returns (r: Result<CommentRow, Error>, stale: seq<QueryKey>)
    requires db.Valid()
    modifies db
    ensures db.Valid()
    ensures user.None? ==> r == Failure(NotAuthenticated)
    ensures user.Some? && !insertOk ==> r == Failure(WriteFailed)
    ensures r.Failure? ==> stale == [] && db.State() == old(db.State())
    ensures r.Success? <==> user.Some? && insertOk
    ensures r.Success? ==> r.value == CommentRow(newId, req.postId, user.value, req.content)
    ensures r.Success? ==> db.comments == old(db.comments) + [r.value] && stale == CommentStale(req.postId)
    ensures db.notifications
         == if user.Some? && insertOk && req.postUserId != user.value && notifyWriteOk
            then [PostNotification(CommentKind, req.postId, req.postUserId, user.value)]
                 + old(db.notifications)
            else old(db.notifications)
    ensures db.posts == old(db.posts) && db.profiles == old(db.profiles) && db.likes == old(db.likes)
    ensures db.follows == old(db.follows)
  {
    if user.None? {
      return Failure(NotAuthenticated), [];
    }
    var uid := user.value;
    if !insertOk {
      return Failure(WriteFailed), [];
    }
    var row := CommentRow(newId, req.postId, uid, req.content);
    db.comments := db.comments + [row];
    if req.postUserId != uid && notifyWriteOk {
      db.notifications := [PostNotification(CommentKind, req.postId, req.postUserId, uid)]
                          + db.notifications;
    }
    r, stale := Success(row), CommentStale(req.postId);
  }

  /** A new comment is the last one its post's list shows after the refetch,
      and the post's comment count grows by one. */
  lemma NewCommentListedLast(t: Tables, c: CommentRow)
    ensures var after := CommentsOn(t.comments + [c], c.postId);
            |after| > 0 && after[|after| - 1] == c && after[..|after| - 1] == CommentsOn(t.comments, c.postId)
    ensures CommentCount(t.comments + [c], c.postId) == CommentCount(t.comments, c.postId) + 1
  {
    CommentsOnAppend(t.comments, c, c.postId);
  }
}
