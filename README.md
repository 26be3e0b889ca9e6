# Social media API: relationship toggles, queries and permissions

A Dafny model of the logic inside a small social-networking REST backend
(users, posts, comments, likes, follows). Most of that backend is framework
glue. What the model covers is the part with behaviour of its own:

- **Relationship toggles.** `follow` / `unfollow` change a user's
  `following` set. `like` / `unlike` change a post's `liked_by` set. Each
  toggle tests membership first and writes only when that test calls for
  it. Follow and unfollow also skip the case where a user targets
  themselves. Like has no such guard.
- **State-changing views.** `Social.SocialGraph` is a class holding the
  stores: users, `following`, posts, `liked_by`, commentaries and the
  task-queue jobs. It has one method per view that changes them. Each
  method's `modifies` frame names the one store it may change. Its
  `ensures` ties the new value of that store to a pure function of the old
  value (`Toggle.Insert` / `Delete`, `UserViews.Followed` / `Unfollowed`).
  Lemmas state what the source promises about those functions: idempotence,
  undoing, and that other users' and posts' sets stay the same.
- **Query layer.** The post list and the user list narrow the table once
  per optional query parameter that is present and non-empty. Each step is
  a case-insensitive substring match on one text field. `Query.Select` is
  the store's filter. It keeps table order and duplicates. The lemmas prove
  that the chain of steps equals a single selection by the conjunction of
  the tests. `my_posts` selects by owner. `followings_posts` answers with
  the posts of the *first* followed user who has any. It does not return
  the union of the followed users' posts, and the model keeps that
  behaviour.
- **Scheduled creation.** `create` never stores a post. It queues one job
  with arguments `(owner id, title, content, created_at)` and an ETA equal
  to `created_at`, and answers 202.
- **Object permissions.** Any signed-in user may read. For any other
  request, a post's owner decides; on a comment the check as written raises
  (see Findings); on a user profile the email decides.

Identifiers are unbounded naturals. Strings are `seq<char>`. Case folding is
ASCII-only. A query parameter is an `Option<string>`, and Python's `if param:`
becomes `Given`: present and non-empty. The answer of a view is a `Reply`
with its status and message, or `Raised(DoesNotExist)` when a bare
`objects.get` finds nothing. The framework turns an uncaught exception into
a 500.

Behaviour the model keeps as the code has it, whatever was intended:

- Creation is always deferred. No branch creates a post at once when
  `created_at` is missing. In that case the ETA is absent as well, so the
  queue runs the job immediately.
- The creation view answers 202, although `tests/test_posts.py:124`
  expects 201.
- The post permission has no fallback from `owner` to `user` (see
  Findings).
- `followings_posts` keeps its first-match behaviour.

Files: `text.dfy` (ASCII lower case, substring test), `query.dfy` (options,
the filter and its algebra), `records.dfy` (entities, responses, request
facts), `toggle.dfy` (guarded membership toggles), `user_views.dfy`,
`post_views.dfy`, `social_graph.dfy` (the `SocialGraph` class),
`post_permissions.dfy`, `user_permissions.dfy`.

## Model

| member | source | states |
|---|---|---|
| Text.ContainsIffOccurs | user/views.py:58-62 | the scanning substring test holds exactly when some offset of the text carries the needle |
| Text.IContainsIgnoresCase | social_app/views.py:53-60 | an `icontains` match does not depend on the case of the field or of the parameter: writing either in lower case or in upper case gives the same answer |
| Query.Select | social_app/views.py:52-61 | a store filter keeps exactly the rows its test accepts and no more rows than the table has; with every row accepted it is the whole table, with none it is empty |
| Query.SelectConjoin | social_app/views.py:53-60 | two filters applied in a row equal one filter by their conjunction, with the same order and multiplicity |
| Query.NarrowSelect | user/views.py:56-61 | one more `if param: queryset = queryset.filter(...)` step is a selection by the old test AND the new field's test |
| Toggle.Insert | social_app/views.py:79-80 | after the guarded add, the record's set is the old set plus the member; the key set is unchanged and every other record's set is unchanged |
| Toggle.Delete | social_app/views.py:92-93 | after the guarded remove, the record's set is the old set minus the member; the key set is unchanged and every other record's set is unchanged |
| Toggle.InsertPresent | social_app/views.py:79-80 | liking a post that is already liked changes nothing |
| Toggle.DeleteAbsent | social_app/views.py:92-93 | unliking a post that is not liked changes nothing |
| Toggle.InsertIdempotent | social_app/views.py:79-80 | a second add leaves the state reached by the first |
| Toggle.DeleteIdempotent | social_app/views.py:92-93 | a second remove leaves the state reached by the first |
| Toggle.DeleteUndoesInsert | social_app/views.py:76-94 | unlike after like, on a post the user had not liked, restores `liked_by` exactly |
| Toggle.InsertUndoesDelete | social_app/views.py:76-94 | like after unlike, on a post the user had liked, restores `liked_by` exactly |
| UserViews.UserListIsConjunction | user/views.py:51-63 | the email / first_name / last_name filter chain equals one selection of the users matching all truthy parameters, in table order |
| UserViews.UserListMembers | user/views.py:56-61 | a user is listed exactly when it is in the table and each truthy parameter occurs case-insensitively in its field |
| UserViews.UserListUnfiltered | user/views.py:56-63 | with no parameters, or only empty ones, the list is the whole table |
| UserViews.FollowAdds | user/views.py:112-114 | following another user puts them in `following(me)`, adds nothing else, and leaves every other user's set unchanged |
| UserViews.FollowIdempotent | user/views.py:113-114 | following an already followed user leaves the relation unchanged |
| UserViews.SelfFollowNoop | user/views.py:112-124 | follow and unfollow of oneself leave the relation unchanged |
| UserViews.UnfollowRemoves | user/views.py:122-124 | after unfollowing another user they are not followed; unfollowing someone not followed changes nothing; other users' sets are unchanged |
| UserViews.UnfollowUndoesFollow | user/views.py:107-124 | unfollow after follow, on a pair not previously related, restores the relation exactly |
| PostViews.PostListIsConjunction | social_app/views.py:46-61 | the hashtag / created_at / title / owner filter chain equals one selection of the posts matching all truthy parameters, in table order |
| PostViews.PostListMembers | social_app/views.py:52-61 | a post is listed exactly when it is in the table and each truthy parameter occurs case-insensitively in the text of its field |
| PostViews.PostListUnfiltered | social_app/views.py:52-61 | with no parameters, or only empty ones, the post list is the whole table |
| PostViews.PostsOf | social_app/views.py:129-130 | the posts of an owner are exactly the table's posts with that owner, and they are non-empty exactly when `exists()` holds |
| PostViews.MyPosts | social_app/views.py:127-133 | the answer is "No posts" exactly when the requester owns no post; otherwise it lists exactly the requester's posts |
| PostViews.FirstPoster | social_app/views.py:144-146 | the position of the first followed user, in iteration order, who has a post: every earlier one has none, and it has one unless it is past the end |
| PostViews.FollowingsPosts | social_app/views.py:141-149 | the loop answers with the posts of the user at `FirstPoster`, or "No posts" when that position is past the end |
| PostViews.FollowingsPostsFromOneUser | social_app/views.py:144-149 | "No posts" exactly when no followed user has a post; otherwise the answer is non-empty and every listed post has the same followed owner, so posts of two followed users are never merged |
| Social.SocialGraph.FollowingsFeed | social_app/views.py:141-149 | run over the requester's own `following` set, the answer is "No posts" exactly when no followed user has a post, and otherwise all the posts of the first followed user, in store order, who has any |
| PostViews.CommentsFor | social_app/views.py:104-108 | 404 exactly when the post is not in the filtered post list; otherwise exactly the comments attached to that post |
| Social.SocialGraph.Follow | user/views.py:107-115 | missing target raises and changes nothing; otherwise answers 200 "now you are following" (self-follow included) and `following` becomes `Followed(old, me, target)`; only `following` may change |
| Social.SocialGraph.Unfollow | user/views.py:117-129 | missing target raises and changes nothing; otherwise answers 200 and `following` becomes `Unfollowed(old, me, target)`; only `following` may change |
| Social.SocialGraph.Like | social_app/views.py:76-81 | unknown post answers 404 and changes nothing; otherwise answers 200 and `liked_by` of that post gains the requester; only `likedBy` may change |
| Social.SocialGraph.Unlike | social_app/views.py:89-94 | unknown post raises and changes nothing; otherwise answers 200 and `liked_by` of that post loses the requester; only `likedBy` may change |
| Social.SocialGraph.SchedulePost | social_app/views.py:30-44 | exactly one job `(owner_id, title, content, created_at)` with ETA `created_at` is appended, no post is stored (only `jobs` may change), and the answer is 202 with the task's message |
| Social.SocialGraph.AddComment | social_app/views.py:110-119 | a post missing from the filtered list answers 404; invalid input answers 400 and adds nothing; valid input adds exactly one commentary by the requester on that post and answers 201 |
| PostPermissions.SafeReadAllowed | social_app/permissions.py:9-14 | a safe method from a signed-in requester is granted whoever owns the object |
| PostPermissions.PostOtherwiseOwnerDecides | social_app/permissions.py:16 | any other request on a post is granted exactly when the requester is its owner |
| PostPermissions.PostOwnerAlwaysAllowed | social_app/permissions.py:9-16 | a post's owner is granted every method |
| PostPermissions.PostNonOwnerWriteDenied | social_app/permissions.py:16 | a non-owner using a non-safe method on a post is denied |
| PostPermissions.AnonymousPostRequestDenied | social_app/permissions.py:9-16 | the read-only branch does not serve an anonymous requester; the ownership test denies it |
| PostPermissions.CommentWriteFaults | social_app/permissions.py:16 | as written, every non-safe request on a commentary raises, including one from its author |
| PostPermissions.IntendedAgreesOnPosts | social_app/permissions.py:8-16 | on posts the corrected permission decides exactly as the original |
| PostPermissions.IntendedOwnerDecides | social_app/permissions.py:8-16 | corrected: never raises; the owner of a post or comment may use every method; a signed-in user may read; a non-owner's non-safe request is denied |
| UserPermissions.ProfileSafeReadAllowed | user/permissions.py:5-11 | a safe method from a signed-in requester is always granted |
| UserPermissions.ProfileOtherwiseEmailDecides | user/permissions.py:13 | a non-safe request from a signed-in user is granted exactly when the emails are equal |
| UserPermissions.OwnProfileAlwaysAllowed | user/permissions.py:5-13 | a user may use every method on the profile carrying their own email |
| UserPermissions.OtherProfileWriteDenied | user/permissions.py:13 | a requester with a different email using a non-safe method is denied |

## Left out

- Token issuance, refresh, verification and blacklisting (`TokenView`,
  `LogoutView`, the JWT routes): these are calls into an external
  authentication library.
- The body of the `create_post` task (social_app/tasks.py): it runs out of
  process on an external worker. Only the job record handed to the queue is
  modelled. The queue's task id is a parameter.
- `my_likes`: it reads the reverse accessor of the legacy `Like` model, not
  `Post.liked_by`, so its result has no defined link to the modelled
  likes.
- Serializers, validation rules (content length, blank content), password
  hashing, image uploads, URL routing and schema annotations are framework
  declarations. The comment serializer's verdict is an input
  (`CommentInput`); its rules are not part of this model.
- The framework-provided CRUD actions (list serialisation, retrieve,
  update, destroy, user registration, "me") are not modelled. Their only
  logic of their own is the permission check, which is modelled.
- The class-level `IsAuthenticated` check is not modelled as a step. The
  methods require the requester to be a stored user (`me in users`),
  because only an authenticated request reaches these views.
- Auto-timestamps (`auto_now`, `auto_now_add`) are clock-driven. Timestamps
  are given text.
- The store's lookup machinery: the post model file declares no `hashtag`
  field, and `owner__icontains` is applied to a foreign key. An ORM that
  refuses a text lookup on a relation fails that query, so a truthy `owner`
  parameter answers with a server error in the source instead of
  filtering. The model does not capture that failure: it reads both filters
  as the intended text matches on fields of the post (`hashtag`,
  `ownerText`).
- PostViews.FollowingsPosts: the order in which the store enumerates a
  user's `following` set is unspecified, so it is a parameter.
- Text.IContainsIgnoresCase: case folding is ASCII-only. A database whose
  `icontains` folds non-ASCII letters matches more than the model does.
- Concurrency: two toggles racing on the same relation are not modelled.
  The model is sequential.
- Primary keys of new commentaries and the `created_time` stamp are not
  modelled. A commentary is its author, post and content.

## Findings

| source | as written | input that shows it | evidently intended | confidence | as-written member | corrected member |
|---|---|---|---|---|---|---|
| social_app/permissions.py:16 | compares `obj.owner` with the requester for every object, but a `Commentary` (social_app/models.py:19-27) has `user` and no `owner` | a PUT or DELETE on a commentary through `CommentViewSet` (social_app/views.py:200-210), even by the comment's author, raises AttributeError (a 500) where social_app/tests/test_comments.py:90-100 expects 200 | the owner of a commentary is its `user` | high; not executed | PostPermissions.CommentWriteFaults | PostPermissions.IntendedOwnerDecides |
