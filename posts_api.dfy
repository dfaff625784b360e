/**
 * The post endpoints' client side: the author join applied to the list and
 * by-tag replies, the search reply passed through untouched, and the delete
 * call answering with the id it was given. The HTTP requests themselves are
 * outside the model; their replies are parameters.
 */
module PostsApi {
  import opened Wrappers
  import opened Entities
  import Lists

  /** `{posts, total}` as the list and by-tag endpoints return it. */
  datatype PostsPage = PostsPage(posts: seq<Post>, total: int)

  /** The search endpoint's JSON as received; either field may be missing. */
  datatype SearchReply = SearchReply(posts: Option<seq<Post>>, total: Option<int>)

  /** A request that completes (or fails) without a body the client reads. */
  datatype Outcome = Pass | Fail(error: string)

  /** `users.find(user => user.id === id)`: the first user with that id. */
  function FindUser(users: seq<Author>, id: int): (r: Option<Author>)
    ensures r.None? <==> forall i :: 0 <= i < |users| ==> users[i].id != id
    ensures r.Some? ==> r.value.id == id && exists i :: 0 <= i < |users| && users[i] == r.value
                                             && forall j :: 0 <= j < i ==> users[j].id != id
  {
    if users == [] then None
    else if users[0].id == id then Some(users[0])
    else
      var r := FindUser(users[1..], id);
      if r.Some? then
        ghost var i :| 0 <= i < |users[1..]| && users[1..][i] == r.value && forall j :: 0 <= j < i ==> users[1..][j].id != id;
        assert users[i + 1] == r.value && forall j :: 0 <= j < i + 1 ==> users[j].id != id;
        r
      else r
  }

  /** `posts.map(post => ({...post, author: users.find(...)}))` */
  function JoinAuthors(posts: seq<Post>, users: seq<Author>): (r: seq<Post>)
    ensures |r| == |posts|
    ensures forall i :: 0 <= i < |posts| ==> r[i].author == FindUser(users, posts[i].userId)
    ensures forall i :: 0 <= i < |posts| ==> r[i].(author := posts[i].author) == posts[i]
  {
    Lists.Map(posts, (p: Post) => p.(author := FindUser(users, p.userId)))
  }

  /**
   * `fetchPostsAPI(skip, limit)`: the page and the user list are fetched
   * together (`Promise.all`), so either failure fails the call.
   */
  function FetchPostsApi(page: Result<PostsPage>, users: Result<seq<Author>>): (r: Result<PostsPage>)
    ensures r.Success? <==> page.Success? && users.Success?
    ensures r.Success? ==> r.value.total == page.value.total
    ensures r.Success? ==> r.value.posts == JoinAuthors(page.value.posts, users.value)
  {
    match (page, users)
    case (Success(p), Success(us)) => Success(PostsPage(JoinAuthors(p.posts, us), p.total))
    case (Failure(e), _) => Failure(e)
    case (_, Failure(e)) => Failure(e)
  }

  /** `fetchPostsByTagAPI(tag)`: the same join over the by-tag reply. */
  function FetchPostsByTagApi(page: Result<PostsPage>, users: Result<seq<Author>>): (r: Result<PostsPage>)
    ensures r == FetchPostsApi(page, users)
  {
    match (page, users)
    case (Success(p), Success(us)) => Success(PostsPage(JoinAuthors(p.posts, us), p.total))
    case (Failure(e), _) => Failure(e)
    case (_, Failure(e)) => Failure(e)
  }

  /** `deletePostAPI(id)`: once the DELETE request completes, the call answers with `id` itself. */
  function DeletePostApi(id: int, sent: Outcome): (r: Result<int>)
    ensures r.Success? <==> sent.Pass?
    ensures r.Success? ==> r.value == id
  {
    match sent
    case Pass => Success(id)
    case Fail(e) => Failure(e)
  }
}
