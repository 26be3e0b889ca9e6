/** The pure part of the user views: the filtered user list and the effect
    of follow / unfollow on the `following` relation. */
module UserViews {
  import opened Query
  import opened Records
  import opened Toggle

  /** The optional `email`, `first_name` and `last_name` query parameters. */
  datatype UserFilter = UserFilter(email: Option<string>, firstName: Option<string>, lastName: Option<string>)

  /** A user the filter lets through: every truthy parameter occurs,
      case-insensitively, in its field. */
  predicate UserMatches(u: User, f: UserFilter) {
    Passes(u.email, f.email) && Passes(u.firstName, f.firstName) && Passes(u.lastName, f.lastName)
  }

  function Email(u: User): string { u.email }
  function FirstName(u: User): string { u.firstName }
  function LastName(u: User): string { u.lastName }

  /** The user list: the table narrowed by each truthy parameter in turn. */
  function UserList(all: seq<User>, f: UserFilter): seq<User> {
    var qs := Narrow(all, Email, f.email);
    var qs := Narrow(qs, FirstName, f.firstName);
    Narrow(qs, LastName, f.lastName)
  }

  /** The chained filters AND together: the list is the one-pass selection of
      the matching users, in table order. */
  lemma UserListIsConjunction(all: seq<User>, f: UserFilter)
    ensures UserList(all, f) == Select(all, (u: User) => UserMatches(u, f))
  {
    var none := (u: User) => true;
    var upToEmail := (u: User) => Passes(u.email, f.email);
    var upToFirst := (u: User) => upToEmail(u) && Passes(u.firstName, f.firstName);
    assert Select(all, none) == all;
    NarrowSelect(all, none, Email, f.email, upToEmail);
    NarrowSelect(all, upToEmail, FirstName, f.firstName, upToFirst);
    NarrowSelect(all, upToFirst, LastName, f.lastName, (u: User) => UserMatches(u, f));
  }

  /** Exactly the matching users are listed. */
  lemma UserListMembers(all: seq<User>, f: UserFilter, u: User)
    ensures u in UserList(all, f) <==> u in all && UserMatches(u, f)
  {
    UserListIsConjunction(all, f);
  }

  /** With no parameter, or only empty ones, the list is the whole table. */
  lemma UserListUnfiltered(all: seq<User>, f: UserFilter)
    requires !Given(f.email) && !Given(f.firstName) && !Given(f.lastName)
    ensures UserList(all, f) == all
  {
  }

  /** The `following` relation after `me` follows `target` (an existing
      user): the self-follow guard leaves it alone, otherwise `target` is
      added if missing. */
  function Followed(following: map<UserId, set<UserId>>, me: UserId, target: UserId): map<UserId, set<UserId>>
    requires me in following
  {
    if me != target then Insert(following, me, target) else following
  }

  /** The `following` relation after `me` unfollows `target` (an existing
      user), under the same self guard. */
  function Unfollowed(following: map<UserId, set<UserId>>, me: UserId, target: UserId): map<UserId, set<UserId>>
    requires me in following
  {
    if me != target then Delete(following, me, target) else following
  }

  /** Following someone else makes them followed, and touches no other
      user's set. */
  lemma FollowAdds(following: map<UserId, set<UserId>>, me: UserId, target: UserId)
    requires me in following && me != target
    ensures target in Followed(following, me, target)[me]
    ensures Followed(following, me, target)[me] == following[me] + {target}
    ensures forall u :: u in following && u != me ==> Followed(following, me, target)[u] == following[u]
  {
  }

  /** Following is idempotent: following a followed user changes nothing. */
  lemma FollowIdempotent(following: map<UserId, set<UserId>>, me: UserId, target: UserId)
    requires me in following && target in following[me]
    ensures Followed(following, me, target) == following
  {
  }

  /** Self-follow is a no-op on every set. */
  lemma SelfFollowNoop(following: map<UserId, set<UserId>>, me: UserId)
    requires me in following
    ensures Followed(following, me, me) == following
    ensures Unfollowed(following, me, me) == following
  {
  }

  /** Unfollowing someone else leaves them unfollowed, changes nothing when
      they were not followed, and touches no other user's set. */
  lemma UnfollowRemoves(following: map<UserId, set<UserId>>, me: UserId, target: UserId)
    requires me in following && me != target
    ensures target !in Unfollowed(following, me, target)[me]
    ensures target !in following[me] ==> Unfollowed(following, me, target) == following
    ensures forall u :: u in following && u != me ==> Unfollowed(following, me, target)[u] == following[u]
  {
  }

  /** Unfollow after follow, on a pair not previously related, restores the
      relation. */
  lemma UnfollowUndoesFollow(following: map<UserId, set<UserId>>, me: UserId, target: UserId)
    requires me in following && target !in following[me]
    ensures Unfollowed(Followed(following, me, target), me, target) == following
  {
    if me != target {
      DeleteUndoesInsert(following, me, target);
    }
  }
}
