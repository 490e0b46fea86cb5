/** The profile page: whose profile it is, the controls it offers, the
    follow request it sends, the stat defaults, and the website link. */
module ProfilePage {
  import opened Wrappers
  import opened Text
  import opened Store
  import opened FeedPosts
  import opened ProfileHooks

  /** `user?.id === profile?.user_id`, once the profile has loaded. */
  predicate IsOwnProfile(user: Option<UserId>, profile: ProfileRow) {
    user == Some(profile.userId)
  }

  /** `profile?.user_id || ''`: the id the page passes to the reads that
      need the profile's user. */
  function PageUserId(profile: Option<ProfileRow>): UserId {
    match profile
    case None => ""
    case Some(p) => p.userId
  }

  /** The page's reads wait for what they need: the profile read for a
      non-empty route username, and the counts, posts and follow-edge reads
      for a loaded profile with a user id (the edge read also for a signed-in
      viewer on someone else's profile). */
  lemma ReadsWaitForProfile(routeUsername: Option<string>, user: Option<UserId>, profile: Option<ProfileRow>)
    ensures ProfileEnabled(routeUsername.GetOr("")) <==> routeUsername.Some? && routeUsername.value != ""
    ensures FollowCountsEnabled(PageUserId(profile)) <==> profile.Some? && profile.value.userId != ""
    ensures UserPostsEnabled(PageUserId(profile)) <==> profile.Some? && profile.value.userId != ""
    ensures IsFollowingEnabled(user, PageUserId(profile))
        <==> user.Some? && profile.Some? && profile.value.userId != "" && !IsOwnProfile(user, profile.value)
  {
  }

  /** The controls beside the name: edit and sign-out for the owner, the
      follow button for everyone else. */
  datatype Controls =
    | OwnerControls
    | FollowButton(caption: string, disabled: bool)

  function ProfileControls(user: Option<UserId>, profile: ProfileRow, isFollowing: Option<bool>, pending: bool)
    : (c: Controls)
    ensures c.OwnerControls? <==> IsOwnProfile(user, profile)
    ensures c.FollowButton? ==> (c.caption == "Following" <==> isFollowing == Some(true))
    ensures c.FollowButton? ==> (c.caption == "Follow" <==> isFollowing != Some(true))
    ensures c.FollowButton? ==> c.disabled == pending
  {
    if IsOwnProfile(user, profile) then OwnerControls
    else FollowButton(if isFollowing == Some(true) then "Following" else "Follow", pending)
  }

  /** `handleFollowToggle`: the profile's user and the follow state, an
      unknown state counting as not following. */
  function FollowRequestFor(profile: ProfileRow, isFollowing: Option<bool>): (r: FollowRequest)
    ensures r.targetUserId == profile.userId
    ensures r.isFollowing <==> isFollowing == Some(true)
  {
    FollowRequest(profile.userId, isFollowing.GetOr(false))
  }

  /** The follow-edge read runs exactly where the follow button is shown:
      for a signed-in viewer on someone else's loaded profile. */
  lemma EdgeReadWhereButtonShows(user: Option<UserId>, profile: ProfileRow, isFollowing: Option<bool>, pending: bool)
    requires profile.userId != ""
    ensures IsFollowingEnabled(user, profile.userId)
        <==> user.Some? && ProfileControls(user, profile, isFollowing, pending).FollowButton?
  {
  }

  /** A follow request from the page never targets the viewer: the button
      only exists on someone else's profile. */
  lemma FollowButtonNeverTargetsSelf(user: Option<UserId>, profile: ProfileRow, isFollowing: Option<bool>, pending: bool)
    requires ProfileControls(user, profile, isFollowing, pending).FollowButton?
    ensures user.Some? ==> FollowRequestFor(profile, isFollowing).targetUserId != user.value
  {
  }

  /** When the follow-edge read succeeded, a click sends the true state, so
      after a successful write and the refetch the label has flipped. */
  lemma FollowClickFlipsLabel(t: Tables, u: UserId, profile: ProfileRow, failed: set<Request>)
    requires u != profile.userId && FollowEdge(u, profile.userId) !in failed
    ensures var shown := FetchIsFollowing(t, Some(u), profile.userId, failed);
            var req := FollowRequestFor(profile, Some(shown));
            var after := t.(follows := FollowsAfterToggle(t.follows, u, req));
            var before := ProfileControls(Some(u), profile, Some(shown), false);
            var now := ProfileControls(Some(u), profile, Some(FetchIsFollowing(after, Some(u), profile.userId, failed)), false);
            before.FollowButton? && now.FollowButton? && before.caption != now.caption
  {
  }

  /** The three numbers under the name. */
  datatype Stats = Stats(posts: nat, followers: nat, following: nat)

  /** `posts?.length || 0`, `followCounts?.followers || 0`, `followCounts?.following || 0`. */
  function ProfileStats(posts: Option<seq<PostRow>>, counts: Option<FollowCounts>): (s: Stats)
    ensures posts.None? ==> s.posts == 0
    ensures posts.Some? ==> s.posts == |posts.value|
    ensures counts.None? ==> s.followers == 0 && s.following == 0
    ensures counts.Some? ==> s.followers == counts.value.followers && s.following == counts.value.following
  {
    Stats(
      match posts case None => 0 case Some(ps) => |ps|,
      match counts case None => 0 case Some(c) => c.followers,
      match counts case None => 0 case Some(c) => c.following)
  }

  /** With every read in place, the numbers are the user's post count and
      edge counts in the tables. */
  lemma StatsMatchTables(t: Tables, userId: UserId, failed: set<Request>)
    requires PostsOf(userId) !in failed && FollowerCountOf(userId) !in failed && FollowingCountOf(userId) !in failed
    ensures var posts := FetchUserPosts(t, userId, failed);
            var s := ProfileStats(Some(posts.value), Some(FetchFollowCounts(t, userId, failed)));
            && s.posts == |PostsBy(t.posts, userId)|
            && s.followers == FollowerCount(t.follows, userId)
            && s.following == FollowingCount(t.follows, userId)
  {
  }

  predicate HasScheme(url: string) {
    StartsWith(url, "http://") || StartsWith(url, "https://")
  }

  /** A text with a scheme starts with "http", and only one scheme fits. */
  lemma SchemeFacts(url: string)
    ensures HasScheme(url) ==> StartsWith(url, "http")
    ensures !(StartsWith(url, "http://") && StartsWith(url, "https://"))
  {
    if StartsWith(url, "http://") {
      assert url[..4] == url[..7][..4];
      assert url[4] == url[..7][4] == ':';
    }
    if StartsWith(url, "https://") {
      assert url[..4] == url[..8][..4];
      assert url[4] == url[..8][4] == 's';
    }
  }

  /** The link target as written: kept when it starts with "http", given
      "https://" in front otherwise. */
  function WebsiteHref(website: string): (href: string)
    ensures StartsWith(href, "http")
    ensures StartsWith(website, "http") ==> href == website
    ensures !StartsWith(website, "http") ==> href == "https://" + website
  {
    if StartsWith(website, "http") then website else "https://" + website
  }

  /** The shown text: one leading "http://" or "https://" removed. */
  function WebsiteDisplay(website: string): (shown: string)
    ensures |shown| <= |website| && shown == website[|website| - |shown|..]
    ensures !HasScheme(website) ==> shown == website
    ensures StartsWith(website, "https://") ==> "https://" + shown == website
    ensures StartsWith(website, "http://") ==> "http://" + shown == website
  {
    SchemeFacts(website);
    if StartsWith(website, "https://") then website[8..]
    else if StartsWith(website, "http://") then website[7..]
    else website
  }

  /** The link and its text name the same site: the text shown for the
      target is the text shown for the stored value. */
  lemma DisplayOfHrefIsDisplay(website: string)
    ensures WebsiteDisplay(WebsiteHref(website)) == WebsiteDisplay(website)
  {
    if !StartsWith(website, "http") {
      var href := "https://" + website;
      assert StartsWith(href, "https://");
      assert href[8..] == website;
      SchemeFacts(website);
    }
  }

  /** A stored website that starts with "http" but names no scheme keeps no
      scheme in its link, so the browser resolves it against the app. */
  lemma HttpPrefixedHostStaysRelative()
    ensures WebsiteHref("httpbin.org") == "httpbin.org"
    ensures !HasScheme(WebsiteHref("httpbin.org"))
  {
    assert StartsWith("httpbin.org", "http");
    assert "httpbin.org"[..7][4] == 'b';
    assert "httpbin.org"[..8][4] == 'b';
  }

  /** The link target with a scheme test in place of the "http" test. */
  function WebsiteHrefWithScheme(website: string): (href: string)
    ensures HasScheme(href)
    ensures HasScheme(website) ==> href == website
    ensures WebsiteDisplay(href) == WebsiteDisplay(website)
  {
    if HasScheme(website) then website
    else
      var href := "https://" + website;
      assert StartsWith(href, "https://");
      assert href[8..] == website;
      href
  }
}
