/** The abstract row store behind the client: the `posts`, `profiles`,
    `likes`, `comments`, `follows` and `notifications` tables, the reads the
    client issues against them, and the object-store path of an upload.

    Every table is held in the order its reads return it: `posts` and
    `notifications` newest first (the order of `created_at desc`), `comments`
    oldest first (the order of `created_at asc`). A new post or notification
    is therefore put in front, a new comment at the back. */
module Store {
  import opened Wrappers
  import opened Text

  type UserId = string
  type PostId = string

  datatype PostRow = PostRow(
    id: PostId, userId: UserId, imageUrl: string,
    caption: Option<string>, location: Option<string>)

  datatype ProfileRow = ProfileRow(
    userId: UserId, username: string, fullName: Option<string>,
    avatarUrl: Option<string>, bio: Option<string>, website: Option<string>)

  /** A row of `likes`: at most one per (post, user) pair. */
  datatype Like = Like(postId: PostId, userId: UserId)

  /** A row of `follows`: `followerId` follows `followingId`. */
  datatype Follow = Follow(followerId: UserId, followingId: UserId)

  datatype CommentRow = CommentRow(id: string, postId: PostId, userId: UserId, content: string)

  /** A row of `notifications`; `userId` is the recipient. */
  datatype NotificationRow = NotificationRow(
    userId: UserId, actorId: UserId, kind: string, postId: Option<PostId>, isRead: bool)

  /** A file picked in the browser: its name and its MIME type. */
  datatype File = File(name: string, mimeType: string)

  const LikeKind: string := "like"
  const CommentKind: string := "comment"
  const FollowKind: string := "follow"

  /** Why a hook call fails: the 'Not authenticated' guard, a failed upload,
      a failed write, a failed read, and `.single()` finding no row. */
  datatype Error = NotAuthenticated | UploadFailed | WriteFailed | ReadFailed | NotFound

  /** The reads the client issues. A read named in a `failed: set<Request>`
      answers with an error instead of data. */
  datatype Request =
    | PostsRange(from: nat, to: nat)
    | PostsOf(userId: UserId)
    | PostById(postId: PostId)
    | ProfileOf(userId: UserId)
    | ProfileNamed(username: string)
    | LikeCountOf(postId: PostId)
    | CommentCountOf(postId: PostId)
    | LikeBy(postId: PostId, userId: UserId)
    | CommentsOf(postId: PostId)
    | FollowerCountOf(userId: UserId)
    | FollowingCountOf(userId: UserId)
    | FollowEdge(followerId: UserId, followingId: UserId)
    | NotificationsFor(userId: UserId)
    | PostImageOf(postId: PostId)

  /** A snapshot of every table. */
  datatype Tables = Tables(
    posts: seq<PostRow>,
    profiles: map<UserId, ProfileRow>,
    likes: set<Like>,
    comments: seq<CommentRow>,
    follows: set<Follow>,
    notifications: seq<NotificationRow>)

  /** The two profile columns the comment and notification lists join:
      `select('username, avatar_url')`. */
  datatype ProfileSummary = ProfileSummary(username: string, avatarUrl: Option<string>)

  /** The `.single()` profile lookup whose error is not checked: a failed or
      empty lookup leaves the summary `null`. */
  function ProfileSummaryOf(t: Tables, userId: UserId, failed: set<Request>): (a: Option<ProfileSummary>)
    ensures a.Some? <==> ProfileOf(userId) !in failed && userId in t.profiles
    ensures a.Some? ==> a.value == ProfileSummary(t.profiles[userId].username, t.profiles[userId].avatarUrl)
  {
    if ProfileOf(userId) in failed || userId !in t.profiles then None
    else Some(ProfileSummary(t.profiles[userId].username, t.profiles[userId].avatarUrl))
  }

  predicate UniquePostIds(posts: seq<PostRow>) {
    forall i, j :: 0 <= i < j < |posts| ==> posts[i].id != posts[j].id
  }

  /** The notifications the client writes: a like or comment notification
      names its post and never goes to its own actor; a follow notification
      names no post. */
  predicate WellFormedNotification(n: NotificationRow) {
    || ((n.kind == LikeKind || n.kind == CommentKind) && n.postId.Some? && n.userId != n.actorId)
    || (n.kind == FollowKind && n.postId.None?)
  }

  predicate ValidTables(t: Tables) {
    && UniquePostIds(t.posts)
    && (forall u :: u in t.profiles ==> t.profiles[u].userId == u)
    && (forall i :: 0 <= i < |t.notifications| ==> WellFormedNotification(t.notifications[i]))
  }

  /** The backing store as the client's writes change it. */
  class Backend {
    var posts: seq<PostRow>
    var profiles: map<UserId, ProfileRow>
    var likes: set<Like>
    var comments: seq<CommentRow>
    var follows: set<Follow>
    var notifications: seq<NotificationRow>

    function State(): Tables
      reads this
    {
      Tables(posts, profiles, likes, comments, follows, notifications)
    }

    ghost predicate Valid()
      reads this
    {
      ValidTables(State())
    }

    constructor (initial: Tables)
      requires ValidTables(initial)
      ensures Valid() && State() == initial
    {
      posts, profiles, likes := initial.posts, initial.profiles, initial.likes;
      comments, follows, notifications := initial.comments, initial.follows, initial.notifications;
    }
  }

  function Min(a: int, b: int): int {
    if a <= b then a else b
  }

  /** `.range(from, to)`: the rows at positions `from` to `to` inclusive,
      clipped to the rows that exist. */
  function RangeRows<T>(rows: seq<T>, from: nat, to: nat): (r: seq<T>)
    ensures |r| == if from < |rows| && from <= to then Min(to + 1, |rows|) - from else 0
    ensures forall k :: 0 <= k < |r| ==> r[k] == rows[from + k]
  {
    if from < |rows| && from <= to then rows[from..Min(to + 1, |rows|)] else []
  }

  /** `.eq('id', id).single()` on `posts`. */
  function PostWithId(posts: seq<PostRow>, id: PostId): (r: Option<PostRow>)
    ensures r.Some? ==> r.value in posts && r.value.id == id
    ensures r.None? ==> forall i :: 0 <= i < |posts| ==> posts[i].id != id
  {
    if posts == [] then None
    else if posts[0].id == id then Some(posts[0])
    else PostWithId(posts[1..], id)
  }

  /** `.eq('user_id', userId)` on `posts`, newest first. */
  function PostsBy(posts: seq<PostRow>, userId: UserId): (r: seq<PostRow>)
    ensures |r| <= |posts|
    ensures forall i :: 0 <= i < |r| ==> r[i] in posts && r[i].userId == userId
    ensures forall x :: x in posts && x.userId == userId ==> x in r
  {
    if posts == [] then []
    else
      assert posts == [posts[0]] + posts[1..];
      (if posts[0].userId == userId then [posts[0]] else []) + PostsBy(posts[1..], userId)
  }

  /** The filter works piece by piece, so the rows it keeps stay in table order. */
  lemma {:induction false} PostsByConcat(a: seq<PostRow>, b: seq<PostRow>, userId: UserId)
    ensures PostsBy(a + b, userId) == PostsBy(a, userId) + PostsBy(b, userId)
  {
    if a == [] {
      assert a + b == b;
    } else {
      assert (a + b)[0] == a[0] && (a + b)[1..] == a[1..] + b;
      PostsByConcat(a[1..], b, userId);
    }
  }

  /** The rows after the first of a table with unique ids have unique ids,
      none of them the first row's. */
  lemma UniqueTail(posts: seq<PostRow>)
    requires posts != [] && UniquePostIds(posts)
    ensures UniquePostIds(posts[1..])
    ensures forall x :: x in posts[1..] ==> x.id != posts[0].id
  {
    forall x | x in posts[1..] ensures x.id != posts[0].id {
      var j :| 0 <= j < |posts[1..]| && posts[1..][j] == x;
      assert posts[j + 1] == x;
    }
  }

  /** Putting a row whose id is new in front of a table keeps ids unique. */
  lemma UniqueCons(p: PostRow, rest: seq<PostRow>)
    requires UniquePostIds(rest)
    requires forall x :: x in rest ==> x.id != p.id
    ensures UniquePostIds([p] + rest)
  {
    var all := [p] + rest;
    forall i, j | 0 <= i < j < |all| ensures all[i].id != all[j].id {
      assert all[j] == rest[j - 1];
      if i > 0 {
        assert all[i] == rest[i - 1];
      } else {
        assert rest[j - 1] in rest;
      }
    }
  }

  /** Inserting a row whose id the table does not hold keeps ids unique. */
  lemma InsertKeepsIdsUnique(posts: seq<PostRow>, row: PostRow)
    requires UniquePostIds(posts) && PostWithId(posts, row.id).None?
    ensures UniquePostIds([row] + posts)
  {
    forall x | x in posts ensures x.id != row.id {
      var j :| 0 <= j < |posts| && posts[j] == x;
    }
    UniqueCons(row, posts);
  }

  /** The posts table without the rows whose id is `id`, in the same order. */
  function WithoutPost(posts: seq<PostRow>, id: PostId): (r: seq<PostRow>)
    ensures |r| <= |posts|
    ensures forall x :: x in r <==> x in posts && x.id != id
    ensures UniquePostIds(posts) ==> UniquePostIds(r)
  {
    if posts == [] then []
    else
      var rest := WithoutPost(posts[1..], id);
      assert posts == [posts[0]] + posts[1..];
      if posts[0].id == id then rest
      else
        if UniquePostIds(posts) then
          UniqueTail(posts);
          UniqueCons(posts[0], rest);
          [posts[0]] + rest
        else [posts[0]] + rest
  }

  /** `.eq('post_id', postId)` on `comments`, oldest first. */
  function CommentsOn(comments: seq<CommentRow>, postId: PostId): (r: seq<CommentRow>)
    ensures |r| <= |comments|
    ensures forall i :: 0 <= i < |r| ==> r[i] in comments && r[i].postId == postId
    ensures forall x :: x in comments && x.postId == postId ==> x in r
  {
    if comments == [] then []
    else
      assert comments == [comments[0]] + comments[1..];
      (if comments[0].postId == postId then [comments[0]] else []) + CommentsOn(comments[1..], postId)
  }

  /** The filter works piece by piece, so the rows it keeps stay in table order. */
  lemma {:induction false} CommentsOnConcat(a: seq<CommentRow>, b: seq<CommentRow>, postId: PostId)
    ensures CommentsOn(a + b, postId) == CommentsOn(a, postId) + CommentsOn(b, postId)
  {
    if a == [] {
      assert a + b == b;
    } else {
      assert (a + b)[0] == a[0] && (a + b)[1..] == a[1..] + b;
      CommentsOnConcat(a[1..], b, postId);
    }
  }

  /** `.eq('user_id', userId)` on `notifications`, newest first. */
  function NotificationsTo(ns: seq<NotificationRow>, userId: UserId): (r: seq<NotificationRow>)
    ensures |r| <= |ns|
    ensures forall i :: 0 <= i < |r| ==> r[i] in ns && r[i].userId == userId
    ensures forall x :: x in ns && x.userId == userId ==> x in r
  {
    if ns == [] then []
    else
      assert ns == [ns[0]] + ns[1..];
      (if ns[0].userId == userId then [ns[0]] else []) + NotificationsTo(ns[1..], userId)
  }

  /** The filter works piece by piece, so the rows it keeps stay in table order. */
  lemma {:induction false} NotificationsToConcat(a: seq<NotificationRow>, b: seq<NotificationRow>, userId: UserId)
    ensures NotificationsTo(a + b, userId) == NotificationsTo(a, userId) + NotificationsTo(b, userId)
  {
    if a == [] {
      assert a + b == b;
    } else {
      assert (a + b)[0] == a[0] && (a + b)[1..] == a[1..] + b;
      NotificationsToConcat(a[1..], b, userId);
    }
  }

  /** The `count: 'exact'` of `likes` rows for a post. */
  function LikeCount(likes: set<Like>, postId: PostId): nat {
    |set l | l in likes && l.postId == postId|
  }

  /** The `count: 'exact'` of `comments` rows for a post. */
  function CommentCount(comments: seq<CommentRow>, postId: PostId): nat {
    |CommentsOn(comments, postId)|
  }

  /** The `count: 'exact'` of `follows` rows whose `following_id` is the user. */
  function FollowerCount(follows: set<Follow>, userId: UserId): nat {
    |set f | f in follows && f.followingId == userId|
  }

  /** The `count: 'exact'` of `follows` rows whose `follower_id` is the user. */
  function FollowingCount(follows: set<Follow>, userId: UserId): nat {
    |set f | f in follows && f.followerId == userId|
  }

  /** Inserting a like adds one to its post's count exactly when it is new. */
  lemma LikeCountAfterInsert(likes: set<Like>, l: Like, postId: PostId)
    ensures LikeCount(likes + {l}, postId)
         == LikeCount(likes, postId) + (if l.postId == postId && l !in likes then 1 else 0)
  {
    var before := set x | x in likes && x.postId == postId;
    var after := set x | x in likes + {l} && x.postId == postId;
    if l.postId == postId && l !in likes {
      assert after == before + {l};
    } else {
      assert after == before;
    }
  }

  /** Deleting a like takes one from its post's count exactly when it existed. */
  lemma LikeCountAfterDelete(likes: set<Like>, l: Like, postId: PostId)
    ensures LikeCount(likes - {l}, postId)
         == LikeCount(likes, postId) - (if l.postId == postId && l in likes then 1 else 0)
  {
    var before := set x | x in likes && x.postId == postId;
    var after := set x | x in likes - {l} && x.postId == postId;
    if l.postId == postId && l in likes {
      assert before == after + {l};
    } else {
      assert after == before;
    }
  }

  /** Inserting an edge adds one follower to its followee exactly when it is new. */
  lemma FollowerCountAfterInsert(follows: set<Follow>, f: Follow, userId: UserId)
    ensures FollowerCount(follows + {f}, userId)
         == FollowerCount(follows, userId) + (if f.followingId == userId && f !in follows then 1 else 0)
  {
    var before := set x | x in follows && x.followingId == userId;
    var after := set x | x in follows + {f} && x.followingId == userId;
    if f.followingId == userId && f !in follows {
      assert after == before + {f};
    } else {
      assert after == before;
    }
  }

  /** Inserting an edge adds one followee to its follower exactly when it is new. */
  lemma FollowingCountAfterInsert(follows: set<Follow>, f: Follow, userId: UserId)
    ensures FollowingCount(follows + {f}, userId)
         == FollowingCount(follows, userId) + (if f.followerId == userId && f !in follows then 1 else 0)
  {
    var before := set x | x in follows && x.followerId == userId;
    var after := set x | x in follows + {f} && x.followerId == userId;
    if f.followerId == userId && f !in follows {
      assert after == before + {f};
    } else {
      assert after == before;
    }
  }

  /** Deleting an edge takes one follower from its followee exactly when it existed. */
  lemma FollowerCountAfterDelete(follows: set<Follow>, f: Follow, userId: UserId)
    ensures FollowerCount(follows - {f}, userId)
         == FollowerCount(follows, userId) - (if f.followingId == userId && f in follows then 1 else 0)
  {
    var before := set x | x in follows && x.followingId == userId;
    var after := set x | x in follows - {f} && x.followingId == userId;
    if f.followingId == userId && f in follows {
      assert before == after + {f};
    } else {
      assert after == before;
    }
  }

  /** Deleting an edge takes one followee from its follower exactly when it existed. */
  lemma FollowingCountAfterDelete(follows: set<Follow>, f: Follow, userId: UserId)
    ensures FollowingCount(follows - {f}, userId)
         == FollowingCount(follows, userId) - (if f.followerId == userId && f in follows then 1 else 0)
  {
    var before := set x | x in follows && x.followerId == userId;
    var after := set x | x in follows - {f} && x.followerId == userId;
    if f.followerId == userId && f in follows {
      assert before == after + {f};
    } else {
      assert after == before;
    }
  }

  /** A comment appended to the table comes last in its own post's list and
      leaves every other post's list as it was. */
  lemma CommentsOnAppend(comments: seq<CommentRow>, c: CommentRow, postId: PostId)
    ensures CommentsOn(comments + [c], postId)
         == CommentsOn(comments, postId) + (if c.postId == postId then [c] else [])
  {
    CommentsOnConcat(comments, [c], postId);
    assert [c][1..] == [];
  }

  /** The layout of an upload path: `<user id>/`, then `stem`, then '.',
      then `ext`, which holds no '.'. */
  predicate PathLayout(path: string, userId: UserId, stem: string, ext: string) {
    && StartsWith(path, userId + "/")
    && '.' !in ext && |ext| < |path| && path[|path| - |ext|..] == ext && path[|path| - |ext| - 1] == '.'
    && |userId| + 1 <= |path| - |ext| - 1 && path[|userId| + 1..|path| - |ext| - 1] == stem
  }

  /** The object-store path of an upload: `<user id>/<timestamp>.<ext>`,
      where `ext` is what follows the last '.' of the file name (the whole
      name when it has none). */
  function UploadPath(userId: UserId, now: nat, fileName: string): (path: string)
    ensures PathLayout(path, userId, Decimal(now), AfterLastDot(fileName))
  {
    var ext := AfterLastDot(fileName);
    PathParts(userId, Decimal(now), ext);
    JoinPath(userId, Decimal(now), ext)
  }

  /** `<user id>/<stem>.<ext>`. */
  function JoinPath(userId: UserId, stem: string, ext: string): string {
    userId + "/" + stem + "." + ext
  }

  /** Where the user id, the stem, the dot and the extension sit in a
      joined path. */
  lemma PathParts(userId: UserId, stem: string, ext: string)
    requires '.' !in ext
    ensures PathLayout(JoinPath(userId, stem, ext), userId, stem, ext)
  {
    var head := userId + "/";
    var path := JoinPath(userId, stem, ext);
    assert path == head + stem + "." + ext;
    assert |path| - |ext| - 1 == |head| + |stem|;
    assert path[..|head|] == head;
    assert path[|head|..|head| + |stem|] == stem;
    assert path[|head| + |stem| + 1..] == ext;
  }
}
