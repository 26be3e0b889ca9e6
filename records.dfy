/** The entities of the identity, content and commentary stores, the
    request facts the permission layer reads, and the answers the views
    give. */
module Records {
  import opened Query

  type UserId = nat
  type PostId = nat

  /** A user profile as the user list shows it; `email` is the login. */
  datatype User = User(id: UserId, email: string, firstName: string, lastName: string)

  /** A stored post. The list filters read every field as text. `ownerText`
      is the intended reading of the `owner` filter: a text naming the owner
      that the parameter is matched against. `createdAt` is the timestamp's
      textual form, so a date filter is a substring match, never a range. */
  datatype Post = Post(
    id: PostId,
    owner: UserId,
    ownerText: string,
    title: string,
    hashtag: string,
    content: string,
    createdAt: string)

  /** A comment: its author (`user`) and the post it is attached to. */
  datatype Commentary = Commentary(user: UserId, post: PostId, content: string)

  /** The arguments handed to the deferred post-creation task. */
  datatype CreatePostArgs = CreatePostArgs(
    ownerId: UserId,
    title: Option<string>,
    content: Option<string>,
    createdAt: Option<string>)

  /** One job on the external task queue, to run at `eta` (at once when absent). */
  datatype Job = Job(args: CreatePostArgs, eta: Option<string>)

  /** An exception the view does not catch; the framework answers 500. */
  datatype Fault = DoesNotExist

  /** What a view hands back: a response with a status code and the message
      of its body, or an uncaught exception. */
  datatype Response = Reply(status: nat, message: string) | Raised(fault: Fault)

  const HTTP_200_OK: nat := 200
  const HTTP_201_CREATED: nat := 201
  const HTTP_202_ACCEPTED: nat := 202
  const HTTP_400_BAD_REQUEST: nat := 400
  const HTTP_404_NOT_FOUND: nat := 404

  /** The body of the framework's 404 answer. */
  const NotFoundMessage := "Not found."

  datatype HttpMethod = GET | HEAD | OPTIONS | POST | PUT | PATCH | DELETE

  /** The framework's read-only methods. */
  predicate IsSafe(m: HttpMethod) {
    m == GET || m == HEAD || m == OPTIONS
  }

  /** Who sent the request: nobody signed in, or an authenticated user. */
  datatype Requester = Anonymous | SignedIn(id: UserId, email: string)

  /** The outcome of an object-permission check; `Fault` is an exception
      raised while deciding. */
  datatype Decision = Allow | Deny | Fault

  /** The ids of a table of posts. */
  function PostIds(posts: seq<Post>): (ids: set<PostId>)
    ensures forall p :: p in posts ==> p.id in ids
    ensures forall id :: id in ids ==> exists p :: p in posts && p.id == id
  {
    set p | p in posts :: p.id
  }

  /** No two posts of the table share an id (the primary key). */
  predicate UniqueIds(posts: seq<Post>) {
    forall i, j | 0 <= i < j < |posts| :: posts[i].id != posts[j].id
  }
}
