/** The home feed screen: the loaded pages shown as one list, the
    intersection observer on the last card that asks for the next page, and
    the delete handler of each card. */
module HomeFeed {
  import opened Wrappers
  import opened Store
  import opened FeedPosts

  /** `data?.pages.flat() ?? []`: nothing before the first page arrives. */
  function DisplayedPosts(data: Option<seq<seq<Post>>>): (posts: seq<Post>)
    ensures data.None? ==> posts == []
    ensures data.Some? ==> posts == Flatten(data.value)
  {
    match data
    case None => []
    case Some(pages) => Flatten(pages)
  }

  function SumOfLengths<T>(pages: seq<seq<T>>): nat {
    if pages == [] then 0 else SumOfLengths(pages[..|pages| - 1]) + |pages[|pages| - 1]|
  }

  /** The list is as long as all pages together. */
  lemma {:induction false} FlattenLength<T>(pages: seq<seq<T>>)
    ensures |Flatten(pages)| == SumOfLengths(pages)
  {
    if pages != [] {
      FlattenLength(pages[..|pages| - 1]);
    }
  }

  /** The list holds the pages in page order: item `i` of page `p` sits
      right after the items of the pages before it. */
  lemma {:induction false} FlattenPlacesPages<T>(pages: seq<seq<T>>, p: nat, i: nat)
    requires p < |pages| && i < |pages[p]|
    ensures SumOfLengths(pages[..p]) + i < |Flatten(pages)|
    ensures Flatten(pages)[SumOfLengths(pages[..p]) + i] == pages[p][i]
  {
    var front := pages[..|pages| - 1];
    FlattenLength(pages);
    FlattenLength(front);
    assert Flatten(pages) == Flatten(front) + pages[|pages| - 1];
    if p == |pages| - 1 {
      assert pages[..p] == front;
    } else {
      assert pages[..p] == front[..p];
      FlattenPlacesPages(front, p, i);
    }
  }

  /** One card of the list: the post it shows and whether the observer's
      ref is attached to it. */
  datatype Card = Card(post: Post, observed: bool)

  /** The list rendered from the displayed posts: the ref goes on the last
      card only. */
  function FeedCards(posts: seq<Post>): (cards: seq<Card>)
    ensures |cards| == |posts|
    ensures forall k :: 0 <= k < |cards| ==> cards[k].post == posts[k]
    ensures forall k :: 0 <= k < |cards| && cards[k].observed ==> k == |cards| - 1
    ensures cards != [] ==> cards[|cards| - 1].observed
  {
    seq(|posts|, k requires 0 <= k < |posts| => Card(posts[k], k == |posts| - 1))
  }

  /** After a delete and the refetch of the feed, no loaded page shows the
      deleted post. */
  lemma DeletedPostLeavesFeed(posts: seq<PostRow>, id: PostId, n: nat)
    ensures forall p, i :: 0 <= p < n && 0 <= i < |LoadedPages(WithoutPost(posts, id), n)[p]|
                       ==> LoadedPages(WithoutPost(posts, id), n)[p][i].id != id
  {
    var rest := WithoutPost(posts, id);
    forall p, i | 0 <= p < n && 0 <= i < |LoadedPages(rest, n)[p]|
      ensures LoadedPages(rest, n)[p][i].id != id
    {
      LoadedPageIsWindow(rest, n, p);
      var page := FeedPageRows(rest, p);
      assert page[i] == rest[p * PostsPerPage + i];
      assert rest[p * PostsPerPage + i] in rest;
    }
  }

  /** An intersection observer: the card it observes (none when created for
      a `null` node), whether it still watches, and the `hasNextPage` its
      callback saw when it was created. */
  datatype Observer = Observer(target: Option<nat>, connected: bool, hasNext: bool)

  /** No observer but the one in `observerRef.current` still watches. */
  predicate OnlyCurrentConnected(observers: seq<Observer>, current: Option<nat>) {
    && (current.Some? ==> current.value < |observers|)
    && forall i :: 0 <= i < |observers| && observers[i].connected ==> current == Some(i)
  }

  /** No observer watches anything. */
  predicate NoneConnected(observers: seq<Observer>) {
    forall i :: 0 <= i < |observers| ==> !observers[i].connected
  }

  /** The indices of the observers still watching. */
  function Live(observers: seq<Observer>): set<nat> {
    set i: nat | i < |observers| && observers[i].connected
  }

  /** At most one observer is live at any time, and none when none is
      connected. */
  lemma AtMostOneLive(observers: seq<Observer>, current: Option<nat>)
    requires OnlyCurrentConnected(observers, current)
    ensures |Live(observers)| <= 1
    ensures Live(observers) != {} ==> Live(observers) == {current.value}
    ensures NoneConnected(observers) ==> Live(observers) == {}
  {
    var live := Live(observers);
    if live != {} {
      var i :| i in live;
      assert current == Some(i);
      assert live == {i};
    }
  }

  /** The `lastPostRef` callback of one render: `useCallback` keeps the
      `isFetchingNextPage` and `hasNextPage` of the render that built it. */
  datatype RefCallback = RefCallback(fetching: bool, hasNext: bool)

  /** The callback React last handed a card, and the card it handed it to. */
  datatype Attachment = Attachment(callback: RefCallback, node: nat)

  class FeedScreen {
    var pages: seq<seq<Post>>
    var isFetchingNextPage: bool
    var observers: seq<Observer>
    var current: Option<nat>
    var attached: Option<Attachment>
    var fetchCalls: nat

    /** At most the current observer watches. While no callback is attached,
        or the attached one was built during a fetch, nothing watches;
        otherwise the current observer watches the attached card with the
        `hasNextPage` that callback saw. */
    ghost predicate Valid()
      reads this
    {
      && OnlyCurrentConnected(observers, current)
      && (attached.None? || attached.value.callback.fetching ==> NoneConnected(observers))
      && (attached.Some? && !attached.value.callback.fetching ==>
            current.Some? && observers[current.value]
              == Observer(Some(attached.value.node), true, attached.value.callback.hasNext))
    }

    /** The callback the current render builds. */
    function RenderedCallback(): (cb: RefCallback)
      reads this
      ensures cb.fetching == isFetchingNextPage && cb.hasNext == HasNextPage(pages)
    {
      RefCallback(isFetchingNextPage, HasNextPage(pages))
    }

    /** The screen as it mounts with its first page loaded, before React
        hands out the ref. */
    constructor (firstPage: seq<Post>)
      ensures Valid()
      ensures pages == [firstPage] && !isFetchingNextPage && observers == [] && current.None?
      ensures attached.None? && fetchCalls == 0
    {
      pages, isFetchingNextPage := [firstPage], false;
      observers, current, attached, fetchCalls := [], None, None, 0;
    }

    /** One call of a `lastPostRef` callback built by some render: when that
        render was fetching nothing happens; otherwise the current observer
        is disconnected and replaced by a new one that watches `node` (when
        there is one) with the `hasNextPage` the render saw. */
    method LastPostRef(cb: RefCallback, node: Option<nat>)
      requires OnlyCurrentConnected(observers, current)
      modifies this
      ensures OnlyCurrentConnected(observers, current)
      ensures cb.fetching ==> observers == old(observers) && current == old(current)
      ensures !cb.fetching ==>
                && |observers| == |old(observers)| + 1
                && current == Some(|old(observers)|)
                && observers[|old(observers)|] == Observer(node, node.Some?, cb.hasNext)
                && forall i :: 0 <= i < |old(observers)| ==>
                     observers[i] == old(observers)[i].(connected := old(observers)[i].connected && old(current) != Some(i))
      ensures pages == old(pages) && isFetchingNextPage == old(isFetchingNextPage)
      ensures attached == old(attached) && fetchCalls == old(fetchCalls)
    {
      if cb.fetching {
        return;
      }
      if current.Some? {
        var c := current.value;
        observers := observers[c := observers[c].(connected := false)];
      }
      observers := observers + [Observer(node, node.Some?, cb.hasNext)];
      current := Some(|observers| - 1);
    }

    /** React commits a render: the ref goes on the last card. When the
        callback or the card differs from the attached one, React calls the
        old callback with `null` and then the new one with the card. So once a
        fetch has started and the screen re-renders, the old callback
        disconnects the live observer and the new one returns early: nothing
        watches until the page arrives and the next render re-attaches. */
    method Commit()
      requires Valid()
      modifies this
      ensures Valid()
      ensures attached == if Flatten(pages) == [] then None
                          else Some(Attachment(RenderedCallback(), |Flatten(pages)| - 1))
      ensures isFetchingNextPage || Flatten(pages) == [] ==> NoneConnected(observers)
      ensures !isFetchingNextPage && Flatten(pages) != [] ==>
                current.Some? && observers[current.value]
                  == Observer(Some(|Flatten(pages)| - 1), true, HasNextPage(pages))
      ensures pages == old(pages) && isFetchingNextPage == old(isFetchingNextPage) && fetchCalls == old(fetchCalls)
    {
      var posts := Flatten(pages);
      var cb := RenderedCallback();
      var next := if posts == [] then None else Some(Attachment(cb, |posts| - 1));
      if next != attached {
        if attached.Some? {
          LastPostRef(attached.value.callback, None);
          assert NoneConnected(observers);
        }
        if next.Some? {
          LastPostRef(cb, Some(next.value.node));
        }
        attached := next;
      }
    }

    /** The live observer reports an intersection: the next page is asked
        for when the entry intersects and its callback saw a next page. The
        callback does not look at `isFetchingNextPage`; what keeps it quiet
        during a fetch is that nothing watches once the fetching render is
        committed. */
    method OnIntersect(isIntersecting: bool) returns (fetch: bool)
      requires Valid()
      modifies this
      ensures Valid()
      ensures fetch <==> current.Some? && observers[current.value].connected && isIntersecting
                         && observers[current.value].hasNext
      ensures attached.None? || attached.value.callback.fetching ==> !fetch
      ensures fetch ==> isFetchingNextPage && fetchCalls == old(fetchCalls) + 1
      ensures !fetch ==> isFetchingNextPage == old(isFetchingNextPage) && fetchCalls == old(fetchCalls)
      ensures pages == old(pages) && observers == old(observers) && current == old(current) && attached == old(attached)
    {
      fetch := current.Some? && observers[current.value].connected && isIntersecting && observers[current.value].hasNext;
      if fetch {
        isFetchingNextPage := true;
        fetchCalls := fetchCalls + 1;
      }
    }

    /** The requested page arrives and is appended after the loaded ones. */
    method PageArrived(page: seq<Post>)
      requires Valid()
      modifies this
      ensures Valid()
      ensures pages == old(pages) + [page] && !isFetchingNextPage
      ensures DisplayedPosts(Some(pages)) == DisplayedPosts(Some(old(pages))) + page
      ensures observers == old(observers) && current == old(current) && attached == old(attached)
      ensures fetchCalls == old(fetchCalls)
    {
      pages := pages + [page];
      isFetchingNextPage := false;
      assert pages[..|pages| - 1] == old(pages);
    }

    /** A card's delete handler deletes the post that card shows. */
    method DeleteCard(db: Backend, k: nat, deleteOk: bool)
      requires db.Valid()
      requires k < |Flatten(pages)|
      modifies db
      ensures db.Valid()
      ensures deleteOk ==> db.posts == WithoutPost(old(db.posts), FeedCards(Flatten(pages))[k].post.row.id)
      ensures !deleteOk ==> db.posts == old(db.posts)
      ensures db.profiles == old(db.profiles) && db.likes == old(db.likes) && db.comments == old(db.comments)
      ensures db.follows == old(db.follows) && db.notifications == old(db.notifications)
    {
      var cards := FeedCards(Flatten(pages));
      var _, _ := DeletePost(db, cards[k].post.row.id, deleteOk);
    }
  }

  /** A full first page on screen: the last card scrolls into view and a
      fetch starts; the fetching render is committed; the card is reported
      in view again before the page arrives. Only one request is made. */
  method InFlightFetchIsNotRepeated(firstPage: seq<Post>) returns (calls: nat)
    requires |firstPage| == PostsPerPage
    ensures calls == 1
  {
    var screen := new FeedScreen(firstPage);
    assert Flatten([firstPage]) == firstPage by { assert [firstPage][..0] == []; }
    screen.Commit();
    var first := screen.OnIntersect(true);
    screen.Commit();
    var second := screen.OnIntersect(true);
    assert !second;
    calls := screen.fetchCalls;
  }

  /** Continuing the run above: once the second page arrives and is
      rendered, the next time the last card comes into view a new request is
      made, so the guard only holds requests back while one is in flight. */
  method FetchResumesAfterPageArrives(firstPage: seq<Post>, secondPage: seq<Post>) returns (calls: nat)
    requires |firstPage| == PostsPerPage && |secondPage| == PostsPerPage
    ensures calls == 2
  {
    var screen := new FeedScreen(firstPage);
    assert Flatten([firstPage]) == firstPage by { assert [firstPage][..0] == []; }
    screen.Commit();
    var first := screen.OnIntersect(true);
    screen.Commit();
    screen.PageArrived(secondPage);
    assert Flatten(screen.pages) == firstPage + secondPage by {
      assert screen.pages == [firstPage, secondPage];
      assert screen.pages[..1] == [firstPage];
    }
    screen.Commit();
    var second := screen.OnIntersect(true);
    calls := screen.fetchCalls;
  }
}
