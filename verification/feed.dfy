/** The post feeds of src/lib/server/posts.ts: the public feed (all posts, newest first,
    paged) and the personalised feed (posts by or to the addresses the viewer trusts, minus
    the viewer's own, each marked with whether the viewer liked it). The Post and
    Interaction collections are values handed in, or the error their query raises. */
module Feed {
  import opened Common
  import opened Profiles
  import opened Relations

  /** A stored post: its id, the lower-cased addresses it was created by and posted to,
      and its creation time. */
  datatype Post = Post(id: nat, creatorAddress: Option<string>, postedToAddress: Option<string>, createdAt: int)

  /** A stored like or repost. */
  datatype Interaction = Interaction(userId: Option<string>, postId: nat, kind: string)

  /** Why a feed came back empty: a property read on null or undefined, the store refusing
      the query (a negative skip), or an error with its message. */
  datatype Failure = NullDereference | QueryRefused | Thrown(message: string)

  predicate NewestFirst(s: seq<Post>) {
    forall i, j :: 0 <= i < j < |s| ==> s[i].createdAt >= s[j].createdAt
  }

  /** A post no older than every post of a newest-first list can head it. */
  lemma PrependNewest(x: Post, s: seq<Post>)
    requires NewestFirst(s)
    requires forall y :: y in s ==> x.createdAt >= y.createdAt
    ensures NewestFirst([x] + s)
  {
    assert forall j :: 0 < j < |[x] + s| ==> ([x] + s)[j] == s[j - 1] && s[j - 1] in s;
  }

  /** A post no older than the head of a newest-first list can head it. */
  lemma PrependNewer(x: Post, s: seq<Post>)
    requires NewestFirst(s) && (s == [] || x.createdAt >= s[0].createdAt)
    ensures NewestFirst([x] + s)
  {
    assert forall y :: y in s ==> x.createdAt >= y.createdAt by {
      assert forall j :: 0 <= j < |s| ==> s[0].createdAt >= s[j].createdAt;
    }
    PrependNewest(x, s);
  }

  /** p placed before the first post that is not newer than it. */
  function InsertByDate(p: Post, s: seq<Post>): (r: seq<Post>)
    requires NewestFirst(s)
    ensures NewestFirst(r)
    ensures multiset(r) == multiset(s) + multiset{p}
  {
    if s == [] || p.createdAt >= s[0].createdAt then
      PrependNewer(p, s);
      [p] + s
    else
      var rest := InsertByDate(p, s[1..]);
      HeadStaysNewest(p, s, rest);
      PrependNewest(s[0], rest);
      assert s == [s[0]] + s[1..];
      [s[0]] + rest
  }

  /** The head of a newest-first list is no older than the rest with an older post added. */
  lemma HeadStaysNewest(p: Post, s: seq<Post>, rest: seq<Post>)
    requires s != [] && NewestFirst(s) && p.createdAt < s[0].createdAt
    requires multiset(rest) == multiset(s[1..]) + multiset{p}
    ensures forall y :: y in rest ==> s[0].createdAt >= y.createdAt
  {
    forall y | y in rest
      ensures s[0].createdAt >= y.createdAt
    {
      assert y in multiset(rest);
      if y != p {
        assert y in multiset(s[1..]);
        var j :| 0 <= j < |s[1..]| && s[1..][j] == y;
        assert s[j + 1] == y;
      }
    }
  }

  /** `.sort({ createdAt: -1 })`: newest first, a permutation of the input. */
  function SortNewestFirst(s: seq<Post>): (r: seq<Post>)
    ensures NewestFirst(r)
    ensures multiset(r) == multiset(s)
  {
    if s == [] then []
    else
      assert s == [s[0]] + s[1..];
      InsertByDate(s[0], SortNewestFirst(s[1..]))
  }

  function Abs(n: int): nat {
    if n < 0 then -n else n
  }

  /** `.skip(skip).limit(limit)`: a negative skip is refused; a limit of 0 means no limit
      and a negative one counts like its absolute value. */
  function Page(s: seq<Post>, skip: int, limit: int): (r: Option<seq<Post>>)
    ensures r.None? <==> skip < 0
    ensures r.Some? ==> (var start := if skip <= |s| then skip else |s|;
                         start + |r.value| <= |s| && r.value == s[start..start + |r.value|]
                         && (limit != 0 ==> |r.value| <= Abs(limit))
                         && (start + |r.value| < |s| ==> limit != 0 && |r.value| == Abs(limit)))
  {
    if skip < 0 then None
    else
      var rest := if skip <= |s| then s[skip..] else [];
      if limit == 0 || |rest| <= Abs(limit) then Some(rest) else Some(rest[..Abs(limit)])
  }

  /** Two consecutive pages of size n make up the page of size 2n. */
  lemma PagesTile(s: seq<Post>, skip: nat, n: nat)
    requires n > 0
    ensures Page(s, skip, n).value + Page(s, skip + n, n).value == Page(s, skip, 2 * n).value
  {
    if skip + n <= |s| {
      assert s[skip..][..n] == s[skip..skip + n];
      if skip + 2 * n <= |s| {
        assert s[skip..][..2 * n] == s[skip..skip + n] + s[skip + n..][..n];
      } else {
        assert s[skip..] == s[skip..skip + n] + s[skip + n..];
      }
    }
  }

  datatype PublicFeed =
    | PublicPosts(posts: seq<Post>)
    | PublicFailed(posts: seq<Post>, skip: int, limit: int, error: Failure)

  /** `getPublicFeed`: every post, newest first, one page of it. */
  function GetPublicFeed(db: Result<seq<Post>>, limit: int, skip: int): (r: PublicFeed)
    ensures r.PublicFailed? <==> db.Err? || skip < 0
    ensures r.PublicFailed? ==> r.posts == [] && r.skip == skip && r.limit == limit
    ensures r.PublicPosts? ==> (NewestFirst(r.posts) && multiset(r.posts) <= multiset(db.value)
                                && (limit != 0 ==> |r.posts| <= Abs(limit)))
    ensures r.PublicPosts? && skip == 0 && limit == 0 ==> multiset(r.posts) == multiset(db.value)
    ensures r.PublicPosts? ==> Some(r.posts) == Page(SortNewestFirst(db.value), skip, limit)
  {
    match db
    case Err(e) => PublicFailed([], skip, limit, Thrown(e))
    case Ok(posts) =>
      var sorted := SortNewestFirst(posts);
      match Page(sorted, skip, limit)
      case None => PublicFailed([], skip, limit, QueryRefused)
      case Some(page) =>
        SliceKeepsOrder(sorted, page, if skip <= |sorted| then skip else |sorted|);
        PublicPosts(page)
  }

  /** A window of a newest-first list is newest first and drawn from it. */
  lemma SliceKeepsOrder(s: seq<Post>, w: seq<Post>, a: nat)
    requires NewestFirst(s)
    requires a + |w| <= |s| && w == s[a..a + |w|]
    ensures NewestFirst(w) && multiset(w) <= multiset(s)
  {
    assert s == s[..a] + w + s[a + |w|..];
    assert multiset(s) == multiset(s[..a]) + multiset(w) + multiset(s[a + |w|..]);
  }

  /** The relations whose posts the viewer sees. */
  predicate Trusting(relation: string) {
    relation == "mutuallyTrusts" || relation == "trusts"
  }

  /** `allowedAddresses`: the lower-cased `objectAvatar` of the trusting relations, in
      order. */
  function AllowedAddresses(js: seq<Joined>): (r: seq<string>)
    ensures forall a :: a in r <==>
      exists i :: 0 <= i < |js| && Trusting(js[i].relationItem.relation) && a == Lower(js[i].relationItem.objectAvatar)
  {
    if js == [] then []
    else
      var rest := AllowedAddresses(js[1..]);
      assert forall i :: 0 < i < |js| ==> js[i] == js[1..][i - 1];
      if Trusting(js[0].relationItem.relation) then [Lower(js[0].relationItem.objectAvatar)] + rest else rest
  }

  /** The personalised post query: by or to an allowed address, and not created by the
      viewer. A missing address matches no `$in` and differs from every `$ne`. */
  predicate Selected(p: Post, allowed: seq<string>, viewer: string) {
    ((p.creatorAddress.Some? && p.creatorAddress.value in allowed)
     || (p.postedToAddress.Some? && p.postedToAddress.value in allowed))
    && p.creatorAddress != Some(viewer)
  }

  function SelectPosts(posts: seq<Post>, allowed: seq<string>, viewer: string): (r: seq<Post>)
    ensures forall p :: p in r <==> p in posts && Selected(p, allowed, viewer)
    ensures multiset(r) <= multiset(posts)
  {
    if posts == [] then []
    else
      var rest := SelectPosts(posts[1..], allowed, viewer);
      assert posts == [posts[0]] + posts[1..];
      if Selected(posts[0], allowed, viewer) then [posts[0]] + rest else rest
  }

  datatype FeedPost = FeedPost(post: Post, isLiked: bool)

  /** The viewer liked the post: one of their interactions is a like of it. */
  predicate LikedBy(ints: seq<Interaction>, profileId: Option<string>, postId: nat) {
    exists i :: 0 <= i < |ints| && ints[i].userId == profileId && ints[i].postId == postId && ints[i].kind == "like"
  }

  /** `likedPostIds`: the ids among the page's posts the viewer's likes point at. */
  function LikedIds(page: seq<Post>, ints: seq<Interaction>, profileId: Option<string>): (ids: set<nat>)
    ensures forall id :: id in ids <==> (exists p :: p in page && p.id == id) && LikedBy(ints, profileId, id)
  {
    var pageIds := set p | p in page :: p.id;
    set x | x in ints && x.userId == profileId && x.postId in pageIds && x.kind == "like" :: x.postId
  }

  /** Each post of the page, in order, with `isLiked`. */
  function Annotate(page: seq<Post>, ints: seq<Interaction>, profileId: Option<string>): (r: seq<FeedPost>)
    ensures |r| == |page|
    ensures forall i :: 0 <= i < |r| ==> r[i].post == page[i] && (r[i].isLiked <==> LikedBy(ints, profileId, page[i].id))
  {
    var liked := LikedIds(page, ints, profileId);
    seq(|page|, i requires 0 <= i < |page| => FeedPost(page[i], page[i].id in liked))
  }

  /** The collections the personalised feed reads: the Circles RPC, the Profile, Post and
      Interaction collections (each possibly failing). */
  datatype FeedEnv = FeedEnv(rpc: TrustRpc, profiles: Result<seq<Profile>>, posts: Result<seq<Post>>,
                             interactions: Result<seq<Interaction>>)

  datatype FeedUser = FeedUser(safeAddress: Option<string>, profileId: Option<string>)

  /** The `session` argument: null, or a session whose `user` may be missing. */
  datatype Session = NoSession | SignedIn(user: Option<FeedUser>)

  datatype PersonalFeed =
    | PersonalPosts(posts: seq<FeedPost>, relations: seq<Joined>)
    | PersonalFailed(posts: seq<FeedPost>, relations: seq<Joined>, error: Failure)

  /** Everything after the session check, for the viewer's address. */
  function FeedFor(env: FeedEnv, u: FeedUser, address: string, limit: int, skip: int): (r: PersonalFeed)
    ensures r.PersonalFailed? ==> r.posts == [] && r.relations == []
    ensures r.PersonalFailed? <==> env.posts.Err? || skip < 0 || (env.interactions.Err? && env.posts.Ok?)
  {
    var rels := GetFilteredRelationsWithProfiles(env.rpc, env.profiles, Some(address));
    var allowed := AllowedAddresses(rels);
    match env.posts
    case Err(e) => PersonalFailed([], [], Thrown(e))
    case Ok(posts) =>
      match Page(SortNewestFirst(SelectPosts(posts, allowed, Lower(address))), skip, limit)
      case None => PersonalFailed([], [], QueryRefused)
      case Some(page) =>
        match env.interactions
        case Err(e) => PersonalFailed([], [], Thrown(e))
        case Ok(ints) => PersonalPosts(Annotate(page, ints, u.profileId), rels)
  }

  /** The page the personalised feed shows, before `isLiked` is attached: the selected
      posts, newest first, one page of them. */
  function PersonalPage(posts: seq<Post>, allowed: seq<string>, viewer: string, limit: int, skip: int): (page: seq<Post>)
    requires skip >= 0
    ensures NewestFirst(page)
    ensures forall p :: p in page ==> p in posts && Selected(p, allowed, viewer)
    ensures limit != 0 ==> |page| <= Abs(limit)
    ensures Some(page) == Page(SortNewestFirst(SelectPosts(posts, allowed, viewer)), skip, limit)
  {
    var selected := SelectPosts(posts, allowed, viewer);
    var sorted := SortNewestFirst(selected);
    var page := Page(sorted, skip, limit).value;
    SliceKeepsOrder(sorted, page, if skip <= |sorted| then skip else |sorted|);
    DrawnMembers(page, selected);
    page
  }

  /** Every post of a sub-multiset is a post of the whole. */
  lemma DrawnMembers(w: seq<Post>, s: seq<Post>)
    requires multiset(w) <= multiset(s)
    ensures forall p :: p in w ==> p in s
  {
    forall p | p in w
      ensures p in s
    {
      assert p in multiset(w);
    }
  }

  /** What the personalised feed promises: the relations come back whole; every post shown
      is a stored post by or to a trusted address and not the viewer's own; the page is
      newest first and within the limit; `isLiked` says whether the viewer liked it. */
  lemma PersonalizedFeedContents(env: FeedEnv, u: FeedUser, address: string, limit: int, skip: int)
    requires env.posts.Ok? && env.interactions.Ok? && skip >= 0
    ensures var r := FeedFor(env, u, address, limit, skip);
      var rels := GetFilteredRelationsWithProfiles(env.rpc, env.profiles, Some(address));
      var page := PersonalPage(env.posts.value, AllowedAddresses(rels), Lower(address), limit, skip);
      r.PersonalPosts? && r.relations == rels
      && |r.posts| == |page|
      && (forall i :: 0 <= i < |r.posts| ==> r.posts[i].post == page[i])
      && (forall i :: 0 <= i < |r.posts| ==>
            (r.posts[i].isLiked <==> LikedBy(env.interactions.value, u.profileId, page[i].id)))
  {
  }

  const InvalidSession := "getPersonalizedFeed | Invalid session or user data"

  /** `getPersonalizedFeed` as written: the guard joins its three tests with `&&`, so it
      never throws its own error. A null session or a missing user fails on the property
      read, a user without an address fails when the post query is built, and any other
      address, the empty one included, goes through. */
  function GetPersonalizedFeedAsWritten(env: FeedEnv, session: Session, limit: int, skip: int): (r: PersonalFeed)
    ensures session.NoSession? || session.user.None? || session.user.value.safeAddress.None? ==>
      r == PersonalFailed([], [], NullDereference)
    ensures session.SignedIn? && session.user.Some? && session.user.value.safeAddress.Some? ==>
      r == FeedFor(env, session.user.value, session.user.value.safeAddress.value, limit, skip)
  {
    match session
    case NoSession => PersonalFailed([], [], NullDereference)
    case SignedIn(user) =>
      match user
      case None => PersonalFailed([], [], NullDereference)
      case Some(u) =>
        if u.safeAddress.None? then PersonalFailed([], [], NullDereference)
        else FeedFor(env, u, u.safeAddress.value, limit, skip)
  }

  /** `getPersonalizedFeed` with the guard the error message describes: a null session, a
      missing user or an empty address is rejected with that message. */
  function GetPersonalizedFeed(env: FeedEnv, session: Session, limit: int, skip: int): (r: PersonalFeed)
    ensures !(session.SignedIn? && session.user.Some? && Truthy(session.user.value.safeAddress)) ==>
      r == PersonalFailed([], [], Thrown(InvalidSession))
    ensures session.SignedIn? && session.user.Some? && Truthy(session.user.value.safeAddress) ==>
      r == FeedFor(env, session.user.value, session.user.value.safeAddress.value, limit, skip)
  {
    if session.NoSession? || session.user.None? || !Truthy(session.user.value.safeAddress) then
      PersonalFailed([], [], Thrown(InvalidSession))
    else
      FeedFor(env, session.user.value, session.user.value.safeAddress.value, limit, skip)
  }

  /** The corrected guard changes nothing for a session with an address. */
  lemma GuardFixKeepsValidSessions(env: FeedEnv, session: Session, limit: int, skip: int)
    requires session.SignedIn? && session.user.Some? && Truthy(session.user.value.safeAddress)
    ensures GetPersonalizedFeed(env, session, limit, skip) == GetPersonalizedFeedAsWritten(env, session, limit, skip)
  {
  }

  /** A session whose address is empty passes the guard as written and is served a feed,
      where the intended guard rejects it. */
  lemma EmptyAddressPassesGuardAsWritten(env: FeedEnv, profileId: Option<string>)
    requires env.posts.Ok? && env.interactions.Ok?
    ensures GetPersonalizedFeedAsWritten(env, SignedIn(Some(FeedUser(Some(""), profileId))), 10, 0).PersonalPosts?
    ensures GetPersonalizedFeed(env, SignedIn(Some(FeedUser(Some(""), profileId))), 10, 0)
      == PersonalFailed([], [], Thrown(InvalidSession))
  {
    PersonalizedFeedContents(env, FeedUser(Some(""), profileId), "", 10, 0);
  }
}
