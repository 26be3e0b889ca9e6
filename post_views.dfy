/** The pure part of the post views: the filtered post list, "my posts",
    "followings' posts", the comment listing of one post, and the answer to
    a scheduled creation. */
module PostViews {
  import opened Query
  import opened Records

  /** The optional `hashtag`, `created_at`, `title` and `owner` query parameters. */
  datatype PostFilter = PostFilter(
    hashtag: Option<string>,
    createdAt: Option<string>,
    title: Option<string>,
    owner: Option<string>)

  /** A post the filter lets through: every truthy parameter occurs,
      case-insensitively, in the text of its field. */
  predicate PostMatches(p: Post, f: PostFilter) {
    && Passes(p.hashtag, f.hashtag)
    && Passes(p.createdAt, f.createdAt)
    && Passes(p.title, f.title)
    && Passes(p.ownerText, f.owner)
  }

  function Hashtag(p: Post): string { p.hashtag }
  function CreatedAt(p: Post): string { p.createdAt }
  function Title(p: Post): string { p.title }
  function OwnerText(p: Post): string { p.ownerText }

  /** The post list: the table narrowed by each truthy parameter in turn. */
  function PostList(all: seq<Post>, f: PostFilter): seq<Post> {
    var qs := Narrow(all, Hashtag, f.hashtag);
    var qs := Narrow(qs, CreatedAt, f.createdAt);
    var qs := Narrow(qs, Title, f.title);
    Narrow(qs, OwnerText, f.owner)
  }

  /** The chained filters AND together: the list is the one-pass selection of
      the matching posts, in table order. */
  lemma PostListIsConjunction(all: seq<Post>, f: PostFilter)
    ensures PostList(all, f) == Select(all, (p: Post) => PostMatches(p, f))
  {
    var none := (p: Post) => true;
    var upToHashtag := (p: Post) => Passes(p.hashtag, f.hashtag);
    var upToDate := (p: Post) => upToHashtag(p) && Passes(p.createdAt, f.createdAt);
    var upToTitle := (p: Post) => upToDate(p) && Passes(p.title, f.title);
    assert Select(all, none) == all;
    NarrowSelect(all, none, Hashtag, f.hashtag, upToHashtag);
    NarrowSelect(all, upToHashtag, CreatedAt, f.createdAt, upToDate);
    NarrowSelect(all, upToDate, Title, f.title, upToTitle);
    NarrowSelect(all, upToTitle, OwnerText, f.owner, (p: Post) => PostMatches(p, f));
  }

  /** Exactly the matching posts are listed. */
  lemma PostListMembers(all: seq<Post>, f: PostFilter, p: Post)
    ensures p in PostList(all, f) <==> p in all && PostMatches(p, f)
  {
    PostListIsConjunction(all, f);
  }

  /** With no parameter, or only empty ones, the list is the whole table. */
  lemma PostListUnfiltered(all: seq<Post>, f: PostFilter)
    requires !Given(f.hashtag) && !Given(f.createdAt) && !Given(f.title) && !Given(f.owner)
    ensures PostList(all, f) == all
  {
  }

  /** Whether `owner` has any post in the table (`posts.exists()`). */
  predicate HasPosts(all: seq<Post>, owner: UserId) {
    exists p :: p in all && p.owner == owner
  }

  /** The posts of one owner, in table order. */
  function PostsOf(all: seq<Post>, owner: UserId): (r: seq<Post>)
    ensures forall p :: p in r <==> p in all && p.owner == owner
    ensures r != [] <==> HasPosts(all, owner)
  {
    var r := Select(all, (p: Post) => p.owner == owner);
    assert r != [] ==> r[0] in r;
    r
  }

  /** The body of a post-listing answer (status 200 either way): the posts,
      or the "No posts" message when there are none. */
  datatype Listing = Posts(items: seq<Post>) | NoPosts

  /** `my_posts`: the requester's own posts, or "No posts". */
  function MyPosts(all: seq<Post>, me: UserId): (r: Listing)
    ensures r.NoPosts? <==> !HasPosts(all, me)
    ensures r.Posts? ==> r.items != [] && forall p :: p in r.items <==> p in all && p.owner == me
  {
    var mine := PostsOf(all, me);
    if mine != [] then Posts(mine) else NoPosts
  }

  /** The position of the first user in `followings` who has a post, or
      `|followings|` when none has. */
  function FirstPoster(followings: seq<UserId>, all: seq<Post>): (k: nat)
    ensures k <= |followings|
    ensures forall j :: 0 <= j < k ==> !HasPosts(all, followings[j])
    ensures k < |followings| ==> HasPosts(all, followings[k])
  {
    if followings == [] then 0
    else if HasPosts(all, followings[0]) then 0
    else 1 + FirstPoster(followings[1..], all)
  }

  /** `followings_posts`: walks the followed users in the order the store
      yields them and answers with the posts of the FIRST one that has any;
      the posts of later followed users are never added. `followings` is
      the requester's `following` set in store order, as
      `SocialGraph.FollowingsFeed` passes it. */
  method FollowingsPosts(followings: seq<UserId>, all: seq<Post>) returns (r: Listing)
    ensures var k := FirstPoster(followings, all);
      r == if k < |followings| then Posts(PostsOf(all, followings[k])) else NoPosts
  {
    var i := 0;
    while i < |followings|
      invariant 0 <= i <= |followings|
      invariant forall j :: 0 <= j < i ==> !HasPosts(all, followings[j])
    {
      var theirs := PostsOf(all, followings[i]);
      if theirs != [] {
        return Posts(theirs);
      }
      i := i + 1;
    }
    return NoPosts;
  }

  /** The answer is "No posts" exactly when no followed user has a post;
      otherwise every listed post belongs to one followed user, so posts of
      two followed users are never merged. */
  lemma FollowingsPostsFromOneUser(followings: seq<UserId>, all: seq<Post>)
    ensures FirstPoster(followings, all) == |followings| <==>
      forall j :: 0 <= j < |followings| ==> !HasPosts(all, followings[j])
    ensures FirstPoster(followings, all) < |followings| ==>
      var u := followings[FirstPoster(followings, all)];
      PostsOf(all, u) != [] && forall p :: p in PostsOf(all, u) ==> p.owner == u
  {
  }

  /** The GET branch of `comment`: the comments of a post the (filtered)
      post list contains, or None when the lookup answers 404. */
  function CommentsFor(posts: seq<Post>, visible: PostFilter, comments: seq<Commentary>, pid: PostId): (r: Option<seq<Commentary>>)
    ensures r.None? <==> pid !in PostIds(PostList(posts, visible))
    ensures r.Some? ==> forall c :: c in r.value <==> c in comments && c.post == pid
  {
    if pid in PostIds(PostList(posts, visible)) then Some(Select(comments, (c: Commentary) => c.post == pid))
    else None
  }

  /** How a missing request field prints inside the answer's message. */
  function Shown(value: Option<string>): string {
    match value
    case Some(s) => s
    case None => "None"
  }

  /** The message of the 202 answer, naming the queue's task id. */
  function ScheduledMessage(taskId: string, createdAt: Option<string>): string {
    "run task " + taskId + " to create post at " + Shown(createdAt)
  }
}
