/** The query cache keys as data. A key is a list of parts; a part that
    comes from `user?.id` with no user is `undefined`. Invalidating a key
    marks every cached key it is a prefix of as stale. */
module QueryKeys {
  import opened Wrappers

  datatype KeyPart = Str(s: string) | Undefined

  type QueryKey = seq<KeyPart>

  function IdPart(id: Option<string>): KeyPart {
    match id
    case Some(s) => Str(s)
    case None => Undefined
  }

  predicate IsPrefix(prefix: QueryKey, key: QueryKey) {
    |prefix| <= |key| && key[..|prefix|] == prefix
  }

  /** The cached entry under `key` is stale after `invalidated` were declared stale. */
  predicate Stale(invalidated: seq<QueryKey>, key: QueryKey) {
    exists i :: 0 <= i < |invalidated| && IsPrefix(invalidated[i], key)
  }

  /** Staleness of a list of invalidations is the union of their staleness. */
  lemma {:induction false} StaleCons(first: QueryKey, rest: seq<QueryKey>, key: QueryKey)
    ensures Stale([first] + rest, key) <==> IsPrefix(first, key) || Stale(rest, key)
  {
    var all := [first] + rest;
    if Stale(rest, key) {
      var i :| 0 <= i < |rest| && IsPrefix(rest[i], key);
      assert all[i + 1] == rest[i];
    }
    if Stale(all, key) && !IsPrefix(first, key) {
      var i :| 0 <= i < |all| && IsPrefix(all[i], key);
      assert i > 0 && all[i] == rest[i - 1];
    }
    if IsPrefix(first, key) {
      assert all[0] == first;
    }
  }

  /** Staleness under two invalidations. */
  lemma StaleOfTwo(a: QueryKey, b: QueryKey, key: QueryKey)
    ensures Stale([a, b], key) <==> IsPrefix(a, key) || IsPrefix(b, key)
  {
    assert [a, b] == [a] + [b];
    StaleCons(a, [b], key);
    assert Stale([b], key) <==> IsPrefix(b, key) by {
      if IsPrefix(b, key) {
        assert [b][0] == b;
      }
    }
  }

  /** Staleness under three invalidations. */
  lemma StaleOfThree(a: QueryKey, b: QueryKey, c: QueryKey, key: QueryKey)
    ensures Stale([a, b, c], key) <==> IsPrefix(a, key) || IsPrefix(b, key) || IsPrefix(c, key)
  {
    assert [a, b, c] == [a] + [b, c];
    StaleCons(a, [b, c], key);
    StaleOfTwo(b, c, key);
  }

  lemma PrefixOfOne(x: KeyPart, key: QueryKey)
    ensures IsPrefix([x], key) <==> |key| > 0 && key[0] == x
  {
    if |key| > 0 && key[0] == x {
      assert key[..1] == [x];
    }
  }

  lemma PrefixOfTwo(x: KeyPart, y: KeyPart, key: QueryKey)
    ensures IsPrefix([x, y], key) <==> |key| > 1 && key[0] == x && key[1] == y
  {
    if |key| > 1 && key[0] == x && key[1] == y {
      assert key[..2] == [x, y];
    }
  }

  // The keys the reads are cached under.
  function FeedKey(): QueryKey { [Str("feed")] }
  function UserPostsKey(userId: string): QueryKey { [Str("userPosts"), Str(userId)] }
  function PostKey(postId: string): QueryKey { [Str("post"), Str(postId)] }
  function CommentsKey(postId: string): QueryKey { [Str("comments"), Str(postId)] }
  function CurrentProfileKey(userId: Option<string>): QueryKey { [Str("profile"), IdPart(userId)] }
  function ProfileByUsernameKey(username: string): QueryKey { [Str("profile"), Str("username"), Str(username)] }
  function FollowCountsKey(userId: string): QueryKey { [Str("followCounts"), Str(userId)] }
  function IsFollowingKey(viewer: Option<string>, target: string): QueryKey {
    [Str("isFollowing"), IdPart(viewer), Str(target)]
  }
  function NotificationsKey(viewer: Option<string>): QueryKey { [Str("notifications"), IdPart(viewer)] }
}
