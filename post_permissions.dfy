/** The object-level permission of the post and comment endpoints: any
    signed-in user may read, and otherwise the object's owner decides. */
module PostPermissions {
  import opened Records

  /** The object under check. A post carries an `owner`; a commentary
      carries its author as `user` and has no `owner` field at all. */
  datatype Resource = PostObject(owner: UserId) | CommentObject(user: UserId)

  /** The permission as written: a safe method from a signed-in requester is
      granted; anything else compares `obj.owner` with the requester, which
      raises on a commentary. An anonymous requester never equals a user. */
  function ObjectPermission(m: HttpMethod, who: Requester, obj: Resource): Decision {
    if IsSafe(m) && who.SignedIn? then Allow
    else
      match obj
      case PostObject(owner) => if who.SignedIn? && who.id == owner then Allow else Deny
      case CommentObject(_) => Fault
  }

  /** A read by a signed-in user is always granted, whoever owns the object. */
  lemma SafeReadAllowed(m: HttpMethod, who: Requester, obj: Resource)
    requires IsSafe(m) && who.SignedIn?
    ensures ObjectPermission(m, who, obj) == Allow
  {
  }

  /** Any other request on a post is granted exactly when the requester owns it. */
  lemma PostOtherwiseOwnerDecides(m: HttpMethod, who: Requester, owner: UserId)
    requires !(IsSafe(m) && who.SignedIn?)
    ensures ObjectPermission(m, who, PostObject(owner)) != Fault
    ensures ObjectPermission(m, who, PostObject(owner)) == Allow <==> who.SignedIn? && who.id == owner
  {
  }

  /** The owner of a post is granted every method. */
  lemma PostOwnerAlwaysAllowed(m: HttpMethod, email: string, owner: UserId)
    ensures ObjectPermission(m, SignedIn(owner, email), PostObject(owner)) == Allow
  {
  }

  /** A non-owner using a non-safe method on a post is denied. */
  lemma PostNonOwnerWriteDenied(m: HttpMethod, who: Requester, owner: UserId)
    requires !IsSafe(m) && !(who.SignedIn? && who.id == owner)
    ensures ObjectPermission(m, who, PostObject(owner)) == Deny
  {
  }

  /** The read-only branch never serves an anonymous requester: even a safe
      request is left to the ownership test, which an anonymous user fails. */
  lemma AnonymousPostRequestDenied(m: HttpMethod, owner: UserId)
    ensures ObjectPermission(m, Anonymous, PostObject(owner)) == Deny
  {
  }

  /** As written, every non-safe request on a commentary raises, its own
      author's included, because a commentary has no `owner`. */
  lemma CommentWriteFaults(m: HttpMethod, who: Requester, author: UserId)
    requires !IsSafe(m)
    ensures ObjectPermission(m, who, CommentObject(author)) == Fault
  {
  }

  /** Who owns an object: a post's `owner`, a commentary's `user`. */
  function OwnerOf(obj: Resource): UserId {
    match obj
    case PostObject(owner) => owner
    case CommentObject(user) => user
  }

  /** The permission with the owner read from the field each object has. */
  function IntendedObjectPermission(m: HttpMethod, who: Requester, obj: Resource): Decision {
    if IsSafe(m) && who.SignedIn? then Allow
    else if who.SignedIn? && who.id == OwnerOf(obj) then Allow
    else Deny
  }

  /** On posts the corrected permission decides as the original does. */
  lemma IntendedAgreesOnPosts(m: HttpMethod, who: Requester, owner: UserId)
    ensures IntendedObjectPermission(m, who, PostObject(owner)) == ObjectPermission(m, who, PostObject(owner))
  {
  }

  /** Corrected: the owner of a post or a comment may use every method, a
      signed-in user may read anything, and nothing else is granted. */
  lemma IntendedOwnerDecides(m: HttpMethod, who: Requester, obj: Resource)
    ensures IntendedObjectPermission(m, who, obj) != Fault
    ensures who.SignedIn? && who.id == OwnerOf(obj) ==> IntendedObjectPermission(m, who, obj) == Allow
    ensures IsSafe(m) && who.SignedIn? ==> IntendedObjectPermission(m, who, obj) == Allow
    ensures !IsSafe(m) && !(who.SignedIn? && who.id == OwnerOf(obj)) ==> IntendedObjectPermission(m, who, obj) == Deny
  {
  }
}
