/** The profile hooks: the current and the by-username profile reads, the
    profile update, the follow counts, the follow-edge read and the follow
    toggle with the cache keys each write declares stale. */
module ProfileHooks {
  import opened Wrappers
  import opened Store
  import opened QueryKeys

  // ---------------------------------------------------------------------
  // Reads

  /** `useCurrentProfile` runs only with a signed-in user. */
  predicate CurrentProfileEnabled(user: Option<UserId>) {
    user.Some?
  }

  /** `useCurrentProfile`: `null` with no user or no row, an error when the
      read fails, otherwise the signed-in user's own row. */
  function FetchCurrentProfile(t: Tables, user: Option<UserId>, failed: set<Request>)
    : (r: Result<Option<ProfileRow>, Error>)
    requires ValidTables(t)
    ensures user.None? ==> r == Success(None)
    ensures r.Failure? <==> user.Some? && ProfileOf(user.value) in failed
    ensures r.Success? && r.value.Some? ==> user.Some? && r.value.value.userId == user.value && r.value.value in t.profiles.Values
    ensures r.Success? && user.Some? ==> (r.value.None? <==> user.value !in t.profiles)
  {
    match user
    case None => Success(None)
    case Some(u) =>
      if ProfileOf(u) in failed then Failure(ReadFailed)
      else if u in t.profiles then Success(Some(t.profiles[u]))
      else Success(None)
  }

  /** The current-profile read is switched off exactly when nobody is signed
      in, and that is also when the read would give `null`. */
  lemma CurrentProfileReadNeedsUser(t: Tables, user: Option<UserId>, failed: set<Request>)
    requires ValidTables(t)
    ensures CurrentProfileEnabled(user) <==> user.Some?
    ensures !CurrentProfileEnabled(user) ==> FetchCurrentProfile(t, user, failed) == Success(None)
  {
  }

  /** `useProfile` runs only for a non-empty username. */
  predicate ProfileEnabled(username: string) {
    username != ""
  }

  /** The users whose profile carries `username`. */
  function UsersNamed(profiles: map<UserId, ProfileRow>, username: string): set<UserId> {
    set u | u in profiles && profiles[u].username == username
  }

  /** `useProfile`: `.eq('username', …).maybeSingle()`, which is `null` when
      no row matches and an error when the read fails or several rows match. */
  ghost function FetchProfileByUsername(t: Tables, username: string, failed: set<Request>)
    : (r: Result<Option<ProfileRow>, Error>)
    ensures r.Failure? <==> ProfileNamed(username) in failed || |UsersNamed(t.profiles, username)| > 1
    ensures r.Success? && r.value.None? ==> forall u :: u in t.profiles ==> t.profiles[u].username != username
    ensures r.Success? && r.value.Some? ==> r.value.value.username == username && r.value.value in t.profiles.Values
  {
    var holders := UsersNamed(t.profiles, username);
    if ProfileNamed(username) in failed || |holders| > 1 then Failure(ReadFailed)
    else if holders == {} then
      assert forall u :: u in t.profiles ==> t.profiles[u].username != username by {
        forall u | u in t.profiles ensures u !in holders ==> t.profiles[u].username != username {
        }
      }
      Success(None)
    else
      var u :| u in holders;
      Success(Some(t.profiles[u]))
  }

  datatype FollowCounts = FollowCounts(followers: nat, following: nat)

  /** `useFollowCounts` runs only for a non-empty id. */
  predicate FollowCountsEnabled(userId: UserId) {
    userId != ""
  }

  /** `useFollowCounts`: the two exact counts of follow edges into and out of
      the user, each read as 0 when it fails (`count ?? 0`); the read itself
      never fails. */
  function FetchFollowCounts(t: Tables, userId: UserId, failed: set<Request>): (r: FollowCounts)
    ensures FollowerCountOf(userId) !in failed ==> r.followers == FollowerCount(t.follows, userId)
    ensures FollowingCountOf(userId) !in failed ==> r.following == FollowingCount(t.follows, userId)
    ensures FollowerCountOf(userId) in failed ==> r.followers == 0
    ensures FollowingCountOf(userId) in failed ==> r.following == 0
  {
    FollowCounts(
      if FollowerCountOf(userId) in failed then 0 else FollowerCount(t.follows, userId),
      if FollowingCountOf(userId) in failed then 0 else FollowingCount(t.follows, userId))
  }

  /** `useIsFollowing` runs with a user, a target and a target that is not the user. */
  predicate IsFollowingEnabled(user: Option<UserId>, target: UserId) {
    user.Some? && target != "" && user.value != target
  }

  /** `useIsFollowing`: whether the edge came back; no user, a failed read and
      a missing edge all read as `false`. */
  function FetchIsFollowing(t: Tables, user: Option<UserId>, target: UserId, failed: set<Request>): (r: bool)
    ensures r ==> user.Some? && Follow(user.value, target) in t.follows
    ensures user.Some? && FollowEdge(user.value, target) !in failed && Follow(user.value, target) in t.follows ==> r
    ensures user.Some? && FollowEdge(user.value, target) in failed ==> !r
  {
    match user
    case None => false
    case Some(u) => FollowEdge(u, target) !in failed && Follow(u, target) in t.follows
  }

  // ---------------------------------------------------------------------
  // Follow toggle

  datatype FollowRequest = FollowRequest(targetUserId: UserId, isFollowing: bool)

  /** The follows table after a successful toggle write. */
  function FollowsAfterToggle(follows: set<Follow>, userId: UserId, req: FollowRequest): (r: set<Follow>)
    ensures (Follow(userId, req.targetUserId) in r) == !req.isFollowing
    ensures forall f :: f != Follow(userId, req.targetUserId) ==> (f in r <==> f in follows)
  {
    if req.isFollowing then follows - {Follow(userId, req.targetUserId)}
    else follows + {Follow(userId, req.targetUserId)}
  }

  /** Toggling from the state the page showed, and then toggling back from the
      state that results, leaves the follows table as it was. */
  lemma FollowToggleRoundTrip(follows: set<Follow>, userId: UserId, req: FollowRequest)
    requires req.isFollowing <==> Follow(userId, req.targetUserId) in follows
    ensures FollowsAfterToggle(FollowsAfterToggle(follows, userId, req), userId,
                               FollowRequest(req.targetUserId, !req.isFollowing)) == follows
  {
  }

  /** Toggling from the true state moves the target's follower count and the
      user's following count by one, in the direction of the toggle. */
  lemma FollowToggleMovesCounts(follows: set<Follow>, userId: UserId, req: FollowRequest)
    requires req.isFollowing <==> Follow(userId, req.targetUserId) in follows
    ensures var after := FollowsAfterToggle(follows, userId, req);
            var delta := if req.isFollowing then -1 else 1;
            && FollowerCount(after, req.targetUserId) == FollowerCount(follows, req.targetUserId) + delta
            && FollowingCount(after, userId) == FollowingCount(follows, userId) + delta
  {
    var f := Follow(userId, req.targetUserId);
    if req.isFollowing {
      FollowerCountAfterDelete(follows, f, req.targetUserId);
      FollowingCountAfterDelete(follows, f, userId);
    } else {
      FollowerCountAfterInsert(follows, f, req.targetUserId);
      FollowingCountAfterInsert(follows, f, userId);
    }
  }

  /** The keys a follow toggle declares stale. */
  function FollowStale(userId: UserId, target: UserId): seq<QueryKey> {
    [[Str("isFollowing")], [Str("followCounts"), Str(target)], [Str("followCounts"), Str(userId)]]
  }

  /** After a follow toggle, every follow-edge read is stale, and of the
      count reads exactly those of the target and of the user. */
  lemma FollowStaleKeys(userId: UserId, target: UserId, key: QueryKey)
    ensures Stale(FollowStale(userId, target), key)
       <==> || (|key| > 0 && key[0] == Str("isFollowing"))
            || (|key| > 1 && key[0] == Str("followCounts") && (key[1] == Str(target) || key[1] == Str(userId)))
  {
    StaleOfThree([Str("isFollowing")], [Str("followCounts"), Str(target)], [Str("followCounts"), Str(userId)], key);
    PrefixOfOne(Str("isFollowing"), key);
    PrefixOfTwo(Str("followCounts"), Str(target), key);
    PrefixOfTwo(Str("followCounts"), Str(userId), key);
  }

  /** `useToggleFollow`: delete or insert the edge; after an insert, write a
      follow notification to the target. Neither write's error is looked at,
      and there is no check that the target is not the user. */
  method ToggleFollow(db: Backend, user: Option<UserId>, req: FollowRequest, edgeWriteOk: bool, notifyWriteOk: bool)
    returns (r: Result<(), Error>, stale: seq<QueryKey>)
    requires db.Valid()
    modifies db
    ensures db.Valid()
    ensures user.None? ==> r == Failure(NotAuthenticated) && stale == [] && db.State() == old(db.State())
    ensures user.Some? ==> r.Success? && stale == FollowStale(user.value, req.targetUserId)
    ensures user.Some? ==> db.follows == if edgeWriteOk then FollowsAfterToggle(old(db.follows), user.value, req) else old(db.follows)
    ensures db.notifications
         == if user.Some? && !req.isFollowing && notifyWriteOk
            then [NotificationRow(req.targetUserId, user.value, FollowKind, None, false)] + old(db.notifications)
            else old(db.notifications)
    ensures db.posts == old(db.posts) && db.profiles == old(db.profiles) && db.likes == old(db.likes)
    ensures db.comments == old(db.comments)
  {
    if user.None? {
      return Failure(NotAuthenticated), [];
    }
    var uid := user.value;
    if edgeWriteOk {
      db.follows := FollowsAfterToggle(db.follows, uid, req);
    }
    if !req.isFollowing && notifyWriteOk {
      db.notifications := [NotificationRow(req.targetUserId, uid, FollowKind, None, false)] + db.notifications;
    }
    r, stale := Success(()), FollowStale(uid, req.targetUserId);
  }

  // ---------------------------------------------------------------------
  // Profile update

  /** The `avatar_url` the update carries: left out of the object when it is
      `undefined`, otherwise a value that may be `null`. */
  datatype AvatarField = Omitted | Given(url: Option<string>)

  /** The fields the edit form sends. */
  datatype ProfileUpdate = ProfileUpdate(
    fullName: string, username: string, bio: string, website: string, avatarUrl: AvatarField)

  /** The row after `.update(updates)`: every field the update carries is
      written, the user id and an omitted avatar are kept. */
  function ApplyUpdate(row: ProfileRow, u: ProfileUpdate): (r: ProfileRow)
    ensures r.userId == row.userId && r.username == u.username
    ensures r.avatarUrl == if u.avatarUrl.Given? then u.avatarUrl.url else row.avatarUrl
    ensures r.fullName == Some(u.fullName) && r.bio == Some(u.bio) && r.website == Some(u.website)
  {
    ProfileRow(
      row.userId, u.username, Some(u.fullName),
      if u.avatarUrl.Given? then u.avatarUrl.url else row.avatarUrl,
      Some(u.bio), Some(u.website))
  }

  /** Saving the same form twice leaves the row as saving it once. */
  lemma ApplyUpdateIdempotent(row: ProfileRow, u: ProfileUpdate)
    ensures ApplyUpdate(ApplyUpdate(row, u), u) == ApplyUpdate(row, u)
  {
  }

  /** The keys a profile update declares stale. */
  function ProfileStale(): seq<QueryKey> { [[Str("profile")]] }

  /** After an update, every profile read is stale: the current user's and
      every by-username read. */
  lemma ProfileStaleKeys(key: QueryKey)
    ensures Stale(ProfileStale(), key) <==> |key| > 0 && key[0] == Str("profile")
  {
    PrefixOfOne(Str("profile"), key);
    assert ProfileStale()[0] == [Str("profile")];
  }

  /** `useUpdateProfile`: update the signed-in user's row and read it back
      with `.single()`, which fails when there is no row. */
  method UpdateProfile(db: Backend, user: Option<UserId>, update: ProfileUpdate, writeOk: bool)
    returns (r: Result<ProfileRow, Error>, stale: seq<QueryKey>)
    requires db.Valid()
    modifies db
    ensures db.Valid()
    ensures user.None? ==> r == Failure(NotAuthenticated)
    ensures user.Some? && user.value !in old(db.profiles) ==> r == Failure(NotFound)
    ensures user.Some? && user.value in old(db.profiles) && !writeOk ==> r == Failure(WriteFailed)
    ensures r.Success? <==> user.Some? && user.value in old(db.profiles) && writeOk
    ensures r.Success? ==> r.value == ApplyUpdate(old(db.profiles)[user.value], update)
    ensures r.Success? ==> db.profiles == old(db.profiles)[user.value := r.value] && stale == ProfileStale()
    ensures r.Failure? ==> db.profiles == old(db.profiles) && stale == []
    ensures db.posts == old(db.posts) && db.likes == old(db.likes) && db.comments == old(db.comments)
    ensures db.follows == old(db.follows) && db.notifications == old(db.notifications)
  {
    if user.None? {
      return Failure(NotAuthenticated), [];
    }
    var uid := user.value;
    if uid !in db.profiles {
      return Failure(NotFound), [];
    }
    if !writeOk {
      return Failure(WriteFailed), [];
    }
    var row := ApplyUpdate(db.profiles[uid], update);
    db.profiles := db.profiles[uid := row];
    r, stale := Success(row), ProfileStale();
  }
}
