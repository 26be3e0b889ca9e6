/** The stores the views change in place: who follows whom, who likes which
    post, the comments, and the task queue that receives scheduled post
    creation. One method per state-changing view. */
module Social {
  import opened Query
  import opened Records
  import opened Toggle
  import opened UserViews
  import opened PostViews

  const FollowMessage := "now you are following"
  const UnfollowMessage := "You are no longer following this user"
  const LikeMessage := "You like this post"
  const UnlikeMessage := "Marked as dislike"
  const CommentAddedMessage := "Comment added"

  /** What the comment serializer made of the request body: the validated
      content, or its field errors. */
  datatype CommentInput = Valid(content: string) | Invalid(errors: string)

  class SocialGraph {
    /** The ids of the stored users. */
    var users: set<UserId>
    /** `following` of each user: the users it follows. */
    var following: map<UserId, set<UserId>>
    /** The post table, in store order. */
    var posts: seq<Post>
    /** `liked_by` of each post. */
    var likedBy: map<PostId, set<UserId>>
    /** The commentary table, in store order. */
    var commentaries: seq<Commentary>
    /** The jobs handed to the external task queue, oldest first. */
    var jobs: seq<Job>

    /** Every user has a `following` set and every post a `liked_by` set,
        both relations only mention stored users, post ids are unique, and
        every commentary's author and post are stored. */
    ghost predicate Valid()
      reads this
    {
      && following.Keys == users
      && (forall u | u in following :: following[u] <= users)
      && UniqueIds(posts)
      && likedBy.Keys == PostIds(posts)
      && (forall p | p in likedBy :: likedBy[p] <= users)
      && (forall c | c in commentaries :: c.user in users && c.post in PostIds(posts))
    }

    /** Stores holding the given users and posts, with no follows, likes,
        comments or jobs yet. */
    constructor (someUsers: set<UserId>, somePosts: seq<Post>)
      requires UniqueIds(somePosts)
      ensures Valid()
      ensures users == someUsers && posts == somePosts
      ensures forall u | u in users :: following[u] == {}
      ensures forall p | p in likedBy :: likedBy[p] == {}
      ensures commentaries == [] && jobs == []
    {
      users := someUsers;
      following := map u | u in someUsers :: {};
      posts := somePosts;
      likedBy := map p | p in PostIds(somePosts) :: {};
      commentaries := [];
      jobs := [];
    }

    /** `follow`: `me` (the signed-in user) follows user `target`. A missing
        target raises; following oneself is ignored but answered the same. */
    method Follow(me: UserId, target: UserId) returns (resp: Response)
      requires Valid() && me in users
      modifies this`following
      ensures Valid()
      ensures target !in users ==> resp == Raised(DoesNotExist) && following == old(following)
      ensures target in users ==>
        resp == Reply(HTTP_200_OK, FollowMessage) && following == Followed(old(following), me, target)
    {
      if target !in users {
        return Raised(DoesNotExist);
      }
      if me != target {
        if target !in following[me] {
          following := following[me := following[me] + {target}];
        }
      }
      resp := Reply(HTTP_200_OK, FollowMessage);
    }

    /** `unfollow`: `me` stops following user `target`, under the same guards. */
    method Unfollow(me: UserId, target: UserId) returns (resp: Response)
      requires Valid() && me in users
      modifies this`following
      ensures Valid()
      ensures target !in users ==> resp == Raised(DoesNotExist) && following == old(following)
      ensures target in users ==>
        resp == Reply(HTTP_200_OK, UnfollowMessage) && following == Unfollowed(old(following), me, target)
    {
      if target !in users {
        return Raised(DoesNotExist);
      }
      if me != target {
        if target in following[me] {
          following := following[me := following[me] - {target}];
        }
      }
      resp := Reply(HTTP_200_OK, UnfollowMessage);
    }

    /** `like`: `me` likes post `pid`; an unknown post answers 404. */
    method Like(me: UserId, pid: PostId) returns (resp: Response)
      requires Valid() && me in users
      modifies this`likedBy
      ensures Valid()
      ensures pid !in PostIds(posts) ==> resp == Reply(HTTP_404_NOT_FOUND, NotFoundMessage) && likedBy == old(likedBy)
      ensures pid in PostIds(posts) ==>
        resp == Reply(HTTP_200_OK, LikeMessage) && likedBy == Insert(old(likedBy), pid, me)
    {
      if pid !in PostIds(posts) {
        return Reply(HTTP_404_NOT_FOUND, NotFoundMessage);
      }
      if me !in likedBy[pid] {
        likedBy := likedBy[pid := likedBy[pid] + {me}];
      }
      resp := Reply(HTTP_200_OK, LikeMessage);
    }

    /** `unlike`: `me` withdraws a like from post `pid`; an unknown post raises. */
    method Unlike(me: UserId, pid: PostId) returns (resp: Response)
      requires Valid() && me in users
      modifies this`likedBy
      ensures Valid()
      ensures pid !in PostIds(posts) ==> resp == Raised(DoesNotExist) && likedBy == old(likedBy)
      ensures pid in PostIds(posts) ==>
        resp == Reply(HTTP_200_OK, UnlikeMessage) && likedBy == Delete(old(likedBy), pid, me)
    {
      if pid !in PostIds(posts) {
        return Raised(DoesNotExist);
      }
      if me in likedBy[pid] {
        likedBy := likedBy[pid := likedBy[pid] - {me}];
      }
      resp := Reply(HTTP_200_OK, UnlikeMessage);
    }

    /** `followings_posts` on the store: `order` enumerates the users `me`
        follows, in the order the store yields them. The answer is
        "No posts" exactly when none of them has a post; otherwise it is all
        the posts of the first of them that has any. */
    method FollowingsFeed(me: UserId, order: seq<UserId>) returns (r: Listing)
      requires Valid() && me in users
      requires (set u | u in order) == following[me]
      ensures r.NoPosts? <==> forall u | u in following[me] :: !HasPosts(posts, u)
      ensures r.Posts? ==> var k := FirstPoster(order, posts);
        k < |order| && order[k] in following[me] && r.items == PostsOf(posts, order[k]) && r.items != []
        && (forall j :: 0 <= j < k ==> !HasPosts(posts, order[j]))
    {
      r := FollowingsPosts(order, posts);
      FollowingsPostsFromOneUser(order, posts);
      if r.NoPosts? {
        forall u | u in following[me]
          ensures !HasPosts(posts, u)
        {
          var j :| 0 <= j < |order| && order[j] == u;
        }
      }
    }

    /** `create`: no post is stored; one creation job is queued, to run at the
        requested `created_at`, and the request is answered 202. `taskId` is
        the id the queue gives the job. */
    method SchedulePost(me: UserId, title: Option<string>, content: Option<string>, createdAt: Option<string>, taskId: string)
      returns (resp: Response)
      requires Valid() && me in users
      modifies this`jobs
      ensures Valid()
      ensures jobs == old(jobs) + [Job(CreatePostArgs(me, title, content, createdAt), createdAt)]
      ensures resp == Reply(HTTP_202_ACCEPTED, ScheduledMessage(taskId, createdAt))
    {
      jobs := jobs + [Job(CreatePostArgs(me, title, content, createdAt), createdAt)];
      resp := Reply(HTTP_202_ACCEPTED, ScheduledMessage(taskId, createdAt));
    }

    /** The POST branch of `comment`: the target is looked up in the post
        list under the request's query parameters (404 when absent); valid
        input stores one comment by `me` on that post and answers 201,
        invalid input stores nothing and answers 400 with the errors. */
    method AddComment(me: UserId, pid: PostId, visible: PostFilter, input: CommentInput) returns (resp: Response)
      requires Valid() && me in users
      modifies this`commentaries
      ensures Valid()
      ensures pid !in PostIds(PostList(posts, visible)) ==>
        resp == Reply(HTTP_404_NOT_FOUND, NotFoundMessage) && commentaries == old(commentaries)
      ensures pid in PostIds(PostList(posts, visible)) && input.Invalid? ==>
        resp == Reply(HTTP_400_BAD_REQUEST, input.errors) && commentaries == old(commentaries)
      ensures pid in PostIds(PostList(posts, visible)) && input.Valid? ==>
        resp == Reply(HTTP_201_CREATED, CommentAddedMessage)
        && commentaries == old(commentaries) + [Commentary(me, pid, input.content)]
    {
      if pid !in PostIds(PostList(posts, visible)) {
        return Reply(HTTP_404_NOT_FOUND, NotFoundMessage);
      }
      match input
      case Valid(content) =>
        var shown :| shown in PostList(posts, visible) && shown.id == pid;
        PostListMembers(posts, visible, shown);
        commentaries := commentaries + [Commentary(me, pid, content)];
        resp := Reply(HTTP_201_CREATED, CommentAddedMessage);
      case Invalid(errors) =>
        resp := Reply(HTTP_400_BAD_REQUEST, errors);
    }
  }
}
