/** The feed card of one post: its optimistic like state, the double-tap
    like, the inline comment box, and which links and controls it shows. */
module PostCardView {
  import opened Wrappers
  import opened Text
  import opened Store
  import opened FeedPosts

  /** What the card shows of the likes: the heart and the count beside it. */
  datatype LikeView = LikeView(liked: bool, count: int)

  /** The optimistic step of a like click: the heart flips and the count
      follows it. */
  function Toggled(v: LikeView): (r: LikeView)
    ensures r.liked != v.liked
    ensures r.count - (if r.liked then 1 else 0) == v.count - (if v.liked then 1 else 0)
  {
    LikeView(!v.liked, if !v.liked then v.count + 1 else v.count - 1)
  }

  /** Two clicks bring the card back to where it was. */
  lemma ToggleTwiceRestores(v: LikeView)
    ensures Toggled(Toggled(v)) == v
  {
  }

  /** The view agrees with the tables for the viewer. */
  predicate Agrees(v: LikeView, likes: set<Like>, postId: PostId, userId: UserId) {
    v.liked == (Like(postId, userId) in likes) && v.count == LikeCount(likes, postId)
  }

  /** A click sends the state the heart showed before it, so when the card
      agreed with the tables and the write succeeds, the optimistic view
      still agrees with them: the refetch after the invalidation shows what
      the card already shows. */
  lemma OptimisticToggleMatchesStore(v: LikeView, likes: set<Like>, postId: PostId, userId: UserId, owner: UserId)
    requires Agrees(v, likes, postId, userId)
    ensures Agrees(Toggled(v), LikesAfterToggle(likes, userId, LikeRequest(postId, v.liked, owner)), postId, userId)
  {
    var l := Like(postId, userId);
    if v.liked {
      LikeCountAfterDelete(likes, l, postId);
    } else {
      LikeCountAfterInsert(likes, l, postId);
    }
  }

  /** The delete entry is offered only to the owner, and only when the page
      passes a delete handler. */
  predicate ShowsDelete(user: Option<UserId>, post: Post, hasOnDelete: bool) {
    user == Some(post.row.userId) && hasOnDelete
  }

  /** "View all N comments" appears only when the count is known and positive. */
  predicate ShowsCommentsLink(post: Post) {
    post.commentsCount.GetOr(0) > 0
  }

  /** The comments link shows on an aggregated post exactly when its count
      read succeeded and the post has comments in the tables. */
  lemma CommentsLinkIffComments(t: Tables, row: PostRow, viewer: Option<UserId>, failed: set<Request>)
    ensures ShowsCommentsLink(Aggregate(t, row, viewer, failed))
        <==> CommentCountOf(row.id) !in failed && CommentsOn(t.comments, row.id) != []
  {
  }

  /** The Post button appears only when the box holds more than white space. */
  predicate ShowsPostButton(comment: string)
    ensures ShowsPostButton(comment) <==> exists i :: 0 <= i < |comment| && !IsSpace(comment[i])
  {
    Trim(comment) != []
  }

  class PostCard {
    const post: Post
    const user: Option<UserId>
    var isLiked: bool
    var likesCount: int
    var comment: string
    var showHeart: bool
    var isSaved: bool

    function View(): LikeView
      reads this
    {
      LikeView(isLiked, likesCount)
    }

    /** The count moves with the heart: it differs from the loaded count by
        exactly the change of the heart since the card was mounted. */
    ghost predicate Valid()
      reads this
    {
      likesCount - (if isLiked then 1 else 0)
        == post.likesCount.GetOr(0) - (if post.isLiked.GetOr(false) then 1 else 0)
    }

    /** The card mounts with the like state of the post it was given
        (`is_liked` falsy and `likes_count` 0 when absent). */
    constructor (post: Post, user: Option<UserId>)
      ensures Valid()
      ensures this.post == post && this.user == user
      ensures View() == LikeView(post.isLiked.GetOr(false), post.likesCount.GetOr(0))
      ensures comment == [] && !showHeart && !isSaved
    {
      this.post, this.user := post, user;
      isLiked, likesCount := post.isLiked.GetOr(false), post.likesCount.GetOr(0);
      comment, showHeart, isSaved := [], false, false;
    }

    /** A click on the heart: with a user, flip the view and send the state
        shown before the click; without one, nothing happens. */
    method HandleLike() returns (sent: Option<LikeRequest>)
      requires Valid()
      modifies this
      ensures Valid()
      ensures user.None? ==> sent.None? && View() == old(View())
      ensures user.Some? ==> View() == Toggled(old(View()))
      ensures user.Some? ==> sent == Some(LikeRequest(post.row.id, old(isLiked), post.row.userId))
      ensures comment == old(comment) && showHeart == old(showHeart) && isSaved == old(isSaved)
    {
      if user.None? {
        return None;
      }
      var newIsLiked := !isLiked;
      isLiked := newIsLiked;
      likesCount := if newIsLiked then likesCount + 1 else likesCount - 1;
      sent := Some(LikeRequest(post.row.id, !newIsLiked, post.row.userId));
    }

    /** A double tap on the image likes and never unlikes: with a user and a
        heart not yet filled, it fills the heart, shows the burst and sends an
        insert; otherwise nothing happens. */
    method HandleDoubleClick() returns (sent: Option<LikeRequest>)
      requires Valid()
      modifies this
      ensures Valid()
      ensures isLiked == (old(isLiked) || user.Some?)
      ensures user.None? || old(isLiked) ==> sent.None? && View() == old(View()) && showHeart == old(showHeart)
      ensures user.Some? && !old(isLiked) ==> View() == Toggled(old(View())) && showHeart
      ensures user.Some? && !old(isLiked) ==> sent == Some(LikeRequest(post.row.id, false, post.row.userId))
      ensures comment == old(comment) && isSaved == old(isSaved)
    {
      if user.None? || isLiked {
        return None;
      }
      showHeart := true;
      isLiked := true;
      likesCount := likesCount + 1;
      sent := Some(LikeRequest(post.row.id, false, post.row.userId));
    }

    /** The timer one second after a double tap hides the burst. */
    method HeartTimeout()
      modifies this
      ensures !showHeart
      ensures View() == old(View()) && comment == old(comment) && isSaved == old(isSaved)
    {
      showHeart := false;
    }

    /** The bookmark toggles a flag local to the card. */
    method ToggleSaved()
      modifies this
      ensures isSaved == !old(isSaved)
      ensures View() == old(View()) && comment == old(comment) && showHeart == old(showHeart)
    {
      isSaved := !isSaved;
    }

    /** Typing in the comment box. */
    method SetComment(typed: string)
      modifies this
      ensures comment == typed
      ensures View() == old(View()) && showHeart == old(showHeart) && isSaved == old(isSaved)
    {
      comment := typed;
    }

    /** Submitting the box: with a user and a comment that is not blank, send
        it as typed (untrimmed) and clear the box; otherwise nothing happens. */
    method HandleComment() returns (sent: Option<CommentRequest>)
      modifies this
      ensures sent.Some? <==> user.Some? && ShowsPostButton(old(comment))
      ensures sent.Some? ==> sent.value == CommentRequest(post.row.id, old(comment), post.row.userId)
      ensures sent.Some? ==> Trim(sent.value.content) != [] && comment == []
      ensures sent.None? ==> comment == old(comment)
      ensures View() == old(View()) && showHeart == old(showHeart) && isSaved == old(isSaved)
    {
      if Trim(comment) == [] || user.None? {
        return None;
      }
      sent := Some(CommentRequest(post.row.id, comment, post.row.userId));
      comment := [];
    }
  }
}
