/** The notifications page: the viewer's newest fifty notifications, each
    with its actor's name and avatar and, when it is about a post, the
    post's image; the icon, text, link and highlight of each entry. */
module NotificationsPage {
  import opened Wrappers
  import opened Store

  /** The `limit` of the notifications query. */
  const NotificationLimit: nat := 50

  /** A notification as the page holds it: the row, its actor (`null` when
      the lookup failed) and the image of its post (`null` when there is no
      post id or the lookup failed). */
  datatype NotificationView = NotificationView(row: NotificationRow, actor: Option<ProfileSummary>, postImage: Option<string>)

  /** The post lookup runs only for a notification with a post id. */
  function PostImage(t: Tables, postId: Option<PostId>, failed: set<Request>): (img: Option<string>)
    ensures postId.None? ==> img.None?
    ensures postId.Some? ==> (img.Some? <==> PostImageOf(postId.value) !in failed && PostWithId(t.posts, postId.value).Some?)
    ensures img.Some? ==> img.value == PostWithId(t.posts, postId.value).value.imageUrl
  {
    match postId
    case None => None
    case Some(pid) =>
      if PostImageOf(pid) in failed then None
      else match PostWithId(t.posts, pid)
        case None => None
        case Some(p) => Some(p.imageUrl)
  }

  function ViewOf(t: Tables, n: NotificationRow, failed: set<Request>): NotificationView {
    NotificationView(n, ProfileSummaryOf(t, n.actorId, failed), PostImage(t, n.postId, failed))
  }

  /** The query: nothing without a viewer; a failed read of the
      notifications fails the query; otherwise the viewer's notifications,
      newest first, cut at fifty, each joined with its actor and post. */
  function LoadNotifications(t: Tables, user: Option<UserId>, failed: set<Request>)
    : (r: Result<seq<NotificationView>, Error>)
    ensures user.None? ==> r == Success([])
    ensures user.Some? ==> (r.Failure? <==> NotificationsFor(user.value) in failed)
    ensures r.Failure? ==> r.error == ReadFailed
    ensures r.Success? ==> |r.value| <= NotificationLimit
    ensures r.Success? && user.Some? ==>
              var mine := NotificationsTo(t.notifications, user.value);
              && |r.value| == Min(NotificationLimit, |mine|)
              && forall i :: 0 <= i < |r.value| ==> r.value[i] == ViewOf(t, mine[i], failed)
  {
    match user
    case None => Success([])
    case Some(u) =>
      if NotificationsFor(u) in failed then Failure(ReadFailed)
      else
        var mine := NotificationsTo(t.notifications, u);
        var shown := mine[..Min(NotificationLimit, |mine|)];
        Success(seq(|shown|, i requires 0 <= i < |shown| => ViewOf(t, shown[i], failed)))
  }

  /** Every entry the page lists is addressed to the viewer. */
  lemma ListedAreAddressedToViewer(t: Tables, u: UserId, failed: set<Request>)
    requires NotificationsFor(u) !in failed
    ensures forall i :: 0 <= i < |LoadNotifications(t, Some(u), failed).value| ==>
              LoadNotifications(t, Some(u), failed).value[i].row.userId == u
  {
  }

  /** A notification written to the store is the first one its recipient's
      page lists. */
  lemma NewNotificationListedFirst(t: Tables, n: NotificationRow, failed: set<Request>)
    requires NotificationsFor(n.userId) !in failed
    ensures var after := t.(notifications := [n] + t.notifications);
            var r := LoadNotifications(after, Some(n.userId), failed);
            && r.Success? && r.value != [] && r.value[0].row == n
            && (Highlighted(r.value[0]) <==> !n.isRead)
  {
    var ns := [n] + t.notifications;
    assert ns[0] == n && ns[1..] == t.notifications;
  }

  datatype Icon = HeartIcon | CommentIcon | FollowIcon | NoIcon

  /** `getNotificationIcon`. */
  function NotificationIcon(kind: string): (i: Icon)
    ensures i == HeartIcon <==> kind == LikeKind
    ensures i == CommentIcon <==> kind == CommentKind
    ensures i == FollowIcon <==> kind == FollowKind
  {
    if kind == LikeKind then HeartIcon
    else if kind == CommentKind then CommentIcon
    else if kind == FollowKind then FollowIcon
    else NoIcon
  }

  /** `getNotificationText`: the sentence after the actor's name, empty
      for a kind it does not know. */
  function NotificationText(kind: string): (s: string)
    ensures s == [] <==> NotificationIcon(kind) == NoIcon
  {
    if kind == LikeKind then "liked your post"
    else if kind == CommentKind then "commented on your post"
    else if kind == FollowKind then "started following you"
    else ""
  }

  /** The entry's link: the actor's profile for a follow, the post
      otherwise. A missing actor or post id is interpolated as the text
      "undefined" or "null". */
  function LinkTarget(v: NotificationView): (link: string)
    ensures v.row.kind == FollowKind && v.actor.Some? ==> link == "/profile/" + v.actor.value.username
    ensures v.row.kind == FollowKind && v.actor.None? ==> link == "/profile/undefined"
    ensures v.row.kind != FollowKind && v.row.postId.Some? ==> link == "/post/" + v.row.postId.value
    ensures v.row.kind != FollowKind && v.row.postId.None? ==> link == "/post/null"
  {
    if v.row.kind == FollowKind then "/profile/" + (match v.actor case None => "undefined" case Some(a) => a.username)
    else "/post/" + v.row.postId.GetOr("null")
  }

  /** Unread entries are shown on a tinted background. */
  predicate Highlighted(v: NotificationView) {
    !v.row.isRead
  }

  /** For notifications the store accepts, every entry has an icon and a
      sentence, a like or comment entry links to its own post, and a follow
      entry whose actor loaded links to the actor's profile page. */
  lemma ListedEntriesRenderFully(t: Tables, u: UserId, failed: set<Request>)
    requires ValidTables(t) && NotificationsFor(u) !in failed
    ensures var vs := LoadNotifications(t, Some(u), failed).value;
            forall i :: 0 <= i < |vs| ==>
              && NotificationIcon(vs[i].row.kind) != NoIcon
              && NotificationText(vs[i].row.kind) != []
              && (vs[i].row.kind != FollowKind ==> vs[i].row.postId.Some? && LinkTarget(vs[i]) == "/post/" + vs[i].row.postId.value)
              && (vs[i].row.kind == FollowKind && vs[i].actor.Some? ==>
                    LinkTarget(vs[i]) == "/profile/" + t.profiles[vs[i].row.actorId].username)
  {
    var vs := LoadNotifications(t, Some(u), failed).value;
    var mine := NotificationsTo(t.notifications, u);
    forall i | 0 <= i < |vs|
      ensures WellFormedNotification(vs[i].row)
    {
      assert vs[i].row == mine[i];
      assert mine[i] in t.notifications;
    }
  }
}
