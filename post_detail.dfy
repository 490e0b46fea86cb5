/** The single-post page: the heart and count it shows, its local like
    state, the comment box and the delete action. */
module PostDetailView {
  import opened Wrappers
  import opened Text
  import opened Store
  import opened FeedPosts
  import opened PostCardView

  /** `usePost(postId || '')` and `usePostComments(postId || '')` run only
      when the route carries a non-empty post id. */
  lemma PostReadsNeedRouteId(routePostId: Option<PostId>)
    ensures PostQueryEnabled(routePostId.GetOr("")) <==> routePostId.Some? && routePostId.value != ""
  {
  }

  /** `realIsLiked` / `realLikesCount`: what the page shows comes from the
      loaded post, `is_liked || false` and `likes_count || 0`. */
  function DisplayedLike(post: Post): (v: LikeView)
    ensures v.count == if post.likesCount.Some? then post.likesCount.value else 0
    ensures v.liked <==> post.isLiked == Some(true)
  {
    LikeView(post.isLiked.GetOr(false), post.likesCount.GetOr(0))
  }

  /** When the post's lookups all succeeded, the page shows the tables. */
  lemma DisplayedLikeMatchesTables(t: Tables, row: PostRow, u: UserId, failed: set<Request>)
    requires forall k :: 0 <= k < |AggregationRequests(row, Some(u))| ==> AggregationRequests(row, Some(u))[k] !in failed
    ensures Agrees(DisplayedLike(Aggregate(t, row, Some(u), failed)), t.likes, row.id, u)
  {
    AggregateMatchesTables(t, row, Some(u), failed);
  }

  /** What the `useState` initializer leaves in the local state: the post's
      like state when the post is already loaded on the first render, and
      not liked with 0 otherwise. It runs on the first render only. */
  function SeedAtMount(atMount: Option<Post>): (v: LikeView)
    ensures atMount.None? ==> v == LikeView(false, 0)
    ensures atMount.Some? ==> v == DisplayedLike(atMount.value)
  {
    match atMount
    case None => LikeView(false, 0)
    case Some(p) => DisplayedLike(p)
  }

  /** The request a click sends: the local pre-click state and the owner. */
  function ClickRequest(local: LikeView, post: Post): (r: LikeRequest)
    ensures r.postId == post.row.id && r.postUserId == post.row.userId
    ensures r.isLiked == local.liked
  {
    LikeRequest(post.row.id, local.liked, post.row.userId)
  }

  /** The page opened before its post loaded, on a post the viewer has liked:
      the heart shows filled, yet the first click sends "not liked", so the
      like write re-inserts an existing row and leaves the like in place
      (and the like notification is written again), and the click after it
      is the one that unlikes. */
  lemma FirstClickAfterLoadDoesNotUnlike(post: Post, likes: set<Like>, u: UserId)
    requires post.isLiked == Some(true) && Like(post.row.id, u) in likes
    ensures DisplayedLike(post).liked
    ensures !ClickRequest(SeedAtMount(None), post).isLiked
    ensures LikesAfterToggle(likes, u, ClickRequest(SeedAtMount(None), post)) == likes
    ensures var second := ClickRequest(Toggled(SeedAtMount(None)), post);
            Like(post.row.id, u) !in LikesAfterToggle(likes, u, second)
  {
  }

  /** The request a click sends when the local state is taken from the
      loaded post, as the displayed heart is. */
  function ResyncedClickRequest(post: Post): (r: LikeRequest)
    ensures r.postId == post.row.id && r.postUserId == post.row.userId
    ensures r.isLiked <==> post.isLiked == Some(true)
  {
    ClickRequest(DisplayedLike(post), post)
  }

  /** With the local state taken from the loaded post, a click always flips
      the stored like, and the tables after the write agree with the
      optimistic view. */
  lemma ResyncedClickFlipsStoredLike(t: Tables, row: PostRow, u: UserId, failed: set<Request>)
    requires forall k :: 0 <= k < |AggregationRequests(row, Some(u))| ==> AggregationRequests(row, Some(u))[k] !in failed
    ensures var post := Aggregate(t, row, Some(u), failed);
            var after := LikesAfterToggle(t.likes, u, ResyncedClickRequest(post));
            && (Like(row.id, u) in after <==> Like(row.id, u) !in t.likes)
            && Agrees(Toggled(DisplayedLike(post)), after, row.id, u)
  {
    var post := Aggregate(t, row, Some(u), failed);
    DisplayedLikeMatchesTables(t, row, u, failed);
    OptimisticToggleMatchesStore(DisplayedLike(post), t.likes, row.id, u, row.userId);
  }

  /** Delete is offered only to the post's owner. */
  predicate ShowsDeleteOnDetail(user: Option<UserId>, post: Post) {
    user == Some(post.row.userId)
  }

  /** The card in a list that passes a delete handler and the detail page
      offer delete to the same viewers: the post's owner only. */
  lemma DeleteOfferedToOwnerOnly(user: Option<UserId>, post: Post)
    ensures ShowsDeleteOnDetail(user, post) <==> ShowsDelete(user, post, true)
    ensures ShowsDeleteOnDetail(user, post) <==> user.Some? && user.value == post.row.userId
    ensures !ShowsDelete(user, post, false)
  {
  }

  class PostDetailPage {
    const user: Option<UserId>
    var isLiked: bool
    var likesCount: int
    var comment: string
    var isSaved: bool

    function Local(): LikeView
      reads this
    {
      LikeView(isLiked, likesCount)
    }

    /** The page mounts with the post as the first render sees it. */
    constructor (user: Option<UserId>, atMount: Option<Post>)
      ensures this.user == user && Local() == SeedAtMount(atMount)
      ensures comment == [] && !isSaved
    {
      this.user := user;
      var seed := SeedAtMount(atMount);
      isLiked, likesCount := seed.liked, seed.count;
      comment, isSaved := [], false;
    }

    /** A click on the heart: with a user and a loaded post, flip the local
        state and send the local pre-click state; otherwise nothing happens. */
    method HandleLike(post: Option<Post>) returns (sent: Option<LikeRequest>)
      modifies this
      ensures user.None? || post.None? ==> sent.None? && Local() == old(Local())
      ensures user.Some? && post.Some? ==> Local() == Toggled(old(Local()))
      ensures user.Some? && post.Some? ==> sent == Some(ClickRequest(old(Local()), post.value))
      ensures comment == old(comment) && isSaved == old(isSaved)
    {
      if user.None? || post.None? {
        return None;
      }
      var newIsLiked := !isLiked;
      isLiked := newIsLiked;
      likesCount := if newIsLiked then likesCount + 1 else likesCount - 1;
      sent := Some(LikeRequest(post.value.row.id, !newIsLiked, post.value.row.userId));
    }

    /** Typing in the comment box. */
    method SetComment(typed: string)
      modifies this
      ensures comment == typed && Local() == old(Local()) && isSaved == old(isSaved)
    {
      comment := typed;
    }

    /** Submitting the box: with a comment that is not blank, a user and a
        loaded post, send it as typed and clear the box. */
    method HandleComment(post: Option<Post>) returns (sent: Option<CommentRequest>)
      modifies this
      ensures sent.Some? <==> ShowsPostButton(old(comment)) && user.Some? && post.Some?
      ensures sent.Some? ==> sent.value == CommentRequest(post.value.row.id, old(comment), post.value.row.userId)
      ensures sent.Some? ==> Trim(sent.value.content) != [] && comment == []
      ensures sent.None? ==> comment == old(comment)
      ensures Local() == old(Local()) && isSaved == old(isSaved)
    {
      if Trim(comment) == [] || user.None? || post.None? {
        return None;
      }
      sent := Some(CommentRequest(post.value.row.id, comment, post.value.row.userId));
      comment := [];
    }

    /** The bookmark toggles a flag local to the page. */
    method ToggleSaved()
      modifies this
      ensures isSaved == !old(isSaved) && Local() == old(Local()) && comment == old(comment)
    {
      isSaved := !isSaved;
    }

    /** Delete: with a loaded post, await the delete of its id, and go home
        only once it has resolved; a failed delete leaves the page open. */
    method HandleDelete(db: Backend, post: Option<Post>, deleteOk: bool) returns (navigateHome: bool)
      requires db.Valid()
      modifies db
      ensures db.Valid()
      ensures navigateHome <==> post.Some? && deleteOk
      ensures post.Some? && deleteOk ==> db.posts == WithoutPost(old(db.posts), post.value.row.id)
      ensures !navigateHome ==> db.posts == old(db.posts)
      ensures db.profiles == old(db.profiles) && db.likes == old(db.likes) && db.comments == old(db.comments)
      ensures db.follows == old(db.follows) && db.notifications == old(db.notifications)
    {
      if post.None? {
        return false;
      }
      var r, _ := DeletePost(db, post.value.row.id, deleteOk);
      navigateHome := r.Success?;
    }
  }
}
