/** The object-level permission of the user-profile endpoints: any signed-in
    user may read a profile, and otherwise only the user whose email the
    profile carries. */
module UserPermissions {
  import opened Records

  /** The permission as written: a safe method from a signed-in requester is
      granted; anything else compares the profile's email with the
      requester's, which raises for an anonymous requester (it has no email). */
  function ProfilePermission(m: HttpMethod, who: Requester, profileEmail: string): Decision {
    if IsSafe(m) && who.SignedIn? then Allow
    else
      match who
      case Anonymous => Fault
      case SignedIn(_, email) => if email == profileEmail then Allow else Deny
  }

  /** A read by a signed-in user is always granted. */
  lemma ProfileSafeReadAllowed(m: HttpMethod, who: Requester, profileEmail: string)
    requires IsSafe(m) && who.SignedIn?
    ensures ProfilePermission(m, who, profileEmail) == Allow
  {
  }

  /** Any other request from a signed-in user is granted exactly when the
      emails are equal. */
  lemma ProfileOtherwiseEmailDecides(m: HttpMethod, id: UserId, email: string, profileEmail: string)
    requires !IsSafe(m)
    ensures ProfilePermission(m, SignedIn(id, email), profileEmail) != Fault
    ensures ProfilePermission(m, SignedIn(id, email), profileEmail) == Allow <==> email == profileEmail
  {
  }

  /** A user may always act on the profile carrying their own email. */
  lemma OwnProfileAlwaysAllowed(m: HttpMethod, id: UserId, email: string)
    ensures ProfilePermission(m, SignedIn(id, email), email) == Allow
  {
  }

  /** A requester with another email using a non-safe method is denied. */
  lemma OtherProfileWriteDenied(m: HttpMethod, id: UserId, email: string, profileEmail: string)
    requires !IsSafe(m) && email != profileEmail
    ensures ProfilePermission(m, SignedIn(id, email), profileEmail) == Deny
  {
  }
}
