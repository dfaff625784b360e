/** The list transforms the post mutations apply to a page of posts. */
module PostLists {
  import opened Entities
  import Lists

  /** `posts.map(post => post.id === data.id ? data : post)` */
  function ReplacePost(posts: seq<Post>, data: Post): (r: seq<Post>)
    ensures |r| == |posts|
    ensures forall i :: 0 <= i < |posts| ==> r[i].id == posts[i].id
    ensures forall i :: 0 <= i < |posts| && posts[i].id == data.id ==> r[i] == data
    ensures forall i :: 0 <= i < |posts| && posts[i].id != data.id ==> r[i] == posts[i]
  {
    Lists.Map(posts, (p: Post) => if p.id == data.id then data else p)
  }

  /** `posts.filter(post => post.id !== id)` */
  function WithoutPost(posts: seq<Post>, id: int): (r: seq<Post>)
    ensures forall i :: 0 <= i < |r| ==> r[i].id != id && r[i] in posts
    ensures forall i :: 0 <= i < |posts| && posts[i].id != id ==> posts[i] in r
    ensures multiset(r) <= multiset(posts)
    ensures |r| == |posts| <==> forall i :: 0 <= i < |posts| ==> posts[i].id != id
  {
    var keep := (p: Post) => p.id != id;
    Lists.FilterSpec(posts, keep);
    Lists.Filter(posts, keep)
  }

  /** Replacing twice with the same reply is the same as replacing once. */
  lemma ReplaceIdempotent(posts: seq<Post>, data: Post)
    ensures ReplacePost(ReplacePost(posts, data), data) == ReplacePost(posts, data)
  {
  }

  /** A reply whose id is on no post leaves the list as it was. */
  lemma ReplaceAbsent(posts: seq<Post>, data: Post)
    requires forall i :: 0 <= i < |posts| ==> posts[i].id != data.id
    ensures ReplacePost(posts, data) == posts
  {
  }

  /** Removing an id keeps the relative order of the rest: it distributes over concatenation. */
  lemma WithoutPostAppend(a: seq<Post>, b: seq<Post>, id: int)
    ensures WithoutPost(a + b, id) == WithoutPost(a, id) + WithoutPost(b, id)
  {
    Lists.FilterAppend(a, b, (p: Post) => p.id != id);
  }

  /** Removing an id a second time changes nothing. */
  lemma WithoutPostIdempotent(posts: seq<Post>, id: int)
    ensures WithoutPost(WithoutPost(posts, id), id) == WithoutPost(posts, id)
  {
    var r := WithoutPost(posts, id);
    Lists.FilterKeepsAll(r, (p: Post) => p.id != id);
  }
}
