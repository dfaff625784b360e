/**
 * The older posts hook (`src/hooks/usePosts.ts`): component state for the
 * post list, its total, a loading flag, the selected post, the new-post form
 * and three dialog flags, updated step by step by the fetch and mutation
 * handlers. `posts` and `total` can become undefined when a search reply
 * lacks them, since the reply's fields are stored as they are.
 */
module UsePosts {
  import opened Wrappers
  import opened Entities
  import opened PostsApi
  import PostLists

  /** The endpoint a fetch handler ends up calling. */
  datatype Endpoint = Paged(skip: int, limit: int) | ByTag(tag: string) | Search(query: string)

  datatype PostsView = PostsView(
    posts: Option<seq<Post>>,
    total: Option<int>,
    loading: bool,
    selectedPost: Option<Post>,
    newPost: PostForm,
    showAddDialog: bool,
    showEditDialog: bool,
    showPostDetailDialog: bool)

  class Hook {
    const skip: int
    const limit: int
    const searchQuery: string
    const selectedTag: string
    var posts: Option<seq<Post>>
    var total: Option<int>
    var loading: bool
    var selectedPost: Option<Post>
    var newPost: PostForm
    var showAddDialog: bool
    var showEditDialog: bool
    var showPostDetailDialog: bool

    function View(): PostsView
      reads this
    {
      PostsView(posts, total, loading, selectedPost, newPost, showAddDialog, showEditDialog, showPostDetailDialog)
    }

    constructor (skip: int, limit: int, searchQuery: string, selectedTag: string)
      ensures this.skip == skip && this.limit == limit
      ensures this.searchQuery == searchQuery && this.selectedTag == selectedTag
      ensures View() == PostsView(Some([]), Some(0), false, None, InitialNewPost, false, false, false)
    {
      this.skip, this.limit, this.searchQuery, this.selectedTag := skip, limit, searchQuery, selectedTag;
      posts, total, loading, selectedPost, newPost := Some([]), Some(0), false, None, InitialNewPost;
      showAddDialog, showEditDialog, showPostDetailDialog := false, false, false;
    }

    /**
     * `fetchPosts()`: the page, then the user list; when both arrive the
     * joined posts and the page's total are stored, otherwise both stay.
     * Loading ends false either way.
     */
    method FetchPosts(page: Result<PostsPage>, users: Result<seq<Author>>) returns (used: Endpoint)
      modifies this
      ensures used == Paged(skip, limit)
      ensures page.Success? && users.Success? ==>
        View() == old(View()).(posts := Some(JoinAuthors(page.value.posts, users.value)),
                               total := Some(page.value.total), loading := false)
      ensures page.Failure? || users.Failure? ==> View() == old(View()).(loading := false)
    {
      loading := true;
      var joined := FetchPostsApi(page, users);
      if joined.Success? {
        posts, total := Some(joined.value.posts), Some(joined.value.total);
      }
      loading := false;
      used := Paged(skip, limit);
    }

    /**
     * `searchPosts(query)`: an empty query falls back to `fetchPosts`
     * (`page` and `users` are its replies); otherwise the search reply's
     * `posts` and `total` are stored as received, with no author join.
     */
    method SearchPosts(query: string, reply: Result<SearchReply>, page: Result<PostsPage>, users: Result<seq<Author>>)
      returns (used: Endpoint)
      modifies this
      ensures query == "" ==> used == Paged(skip, limit)
      ensures query == "" && page.Success? && users.Success? ==>
        View() == old(View()).(posts := Some(JoinAuthors(page.value.posts, users.value)),
                               total := Some(page.value.total), loading := false)
      ensures query == "" && (page.Failure? || users.Failure?) ==> View() == old(View()).(loading := false)
      ensures query != "" ==> used == Search(query)
      ensures query != "" && reply.Success? ==>
        View() == old(View()).(posts := reply.value.posts, total := reply.value.total, loading := false)
      ensures query != "" && reply.Failure? ==> View() == old(View()).(loading := false)
    {
      if query == "" {
        used := FetchPosts(page, users);
        return;
      }
      loading := true;
      if reply.Success? {
        posts, total := reply.value.posts, reply.value.total;
      }
      loading := false;
      used := Search(query);
    }

    /**
     * `fetchPostsByTag(tag)`: `""` and `"all"` fall back to `fetchPosts`;
     * any other tag fetches that tag's posts and the users together and
     * stores the joined posts and the total. `page` is the reply of
     * whichever post endpoint is used.
     */
    method FetchPostsByTag(tag: string, page: Result<PostsPage>, users: Result<seq<Author>>) returns (used: Endpoint)
      modifies this
      ensures used == if tag == "" || tag == "all" then Paged(skip, limit) else ByTag(tag)
      ensures page.Success? && users.Success? ==>
        View() == old(View()).(posts := Some(JoinAuthors(page.value.posts, users.value)),
                               total := Some(page.value.total), loading := false)
      ensures page.Failure? || users.Failure? ==> View() == old(View()).(loading := false)
    {
      if tag == "" || tag == "all" {
        used := FetchPosts(page, users);
        return;
      }
      loading := true;
      var joined := FetchPostsByTagApi(page, users);
      if joined.Success? {
        posts, total := Some(joined.value.posts), Some(joined.value.total);
      }
      loading := false;
      used := ByTag(tag);
    }

    /** The effect on `[skip, limit, selectedTag]`: a selected tag fetches by tag, no tag fetches the page. */
    method Refresh(page: Result<PostsPage>, users: Result<seq<Author>>) returns (used: Endpoint)
      modifies this
      ensures used == if selectedTag == "" || selectedTag == "all" then Paged(skip, limit) else ByTag(selectedTag)
      ensures page.Success? && users.Success? ==>
        View() == old(View()).(posts := Some(JoinAuthors(page.value.posts, users.value)),
                               total := Some(page.value.total), loading := false)
      ensures page.Failure? || users.Failure? ==> View() == old(View()).(loading := false)
    {
      if selectedTag != "" {
        used := FetchPostsByTag(selectedTag, page, users);
      } else {
        used := FetchPosts(page, users);
      }
    }

    /**
     * `addPost()`: sends the form; the reply is put in front of the list,
     * the add dialog closes and the form resets. The total is not changed.
     * With the list undefined the spread throws and nothing changes.
     */
    method AddPost(reply: Result<Post>) returns (sent: PostForm)
      modifies this
      ensures sent == old(newPost)
      ensures reply.Success? && old(posts).Some? ==>
        View() == old(View()).(posts := Some([reply.value] + old(posts).value),
                               showAddDialog := false, newPost := InitialNewPost)
      ensures reply.Failure? || old(posts).None? ==> View() == old(View())
    {
      sent := newPost;
      if reply.Success? && posts.Some? {
        posts := Some([reply.value] + posts.value);
        showAddDialog := false;
        newPost := InitialNewPost;
      }
    }

    /**
     * `updatePost()`: nothing without a selected post; otherwise sends it and
     * replaces the posts with the reply's id, then closes the edit dialog.
     */
    method UpdatePost(reply: Result<Post>) returns (sent: Option<Post>)
      modifies this
      ensures sent == old(selectedPost)
      ensures sent.Some? && reply.Success? && old(posts).Some? ==>
        View() == old(View()).(posts := Some(PostLists.ReplacePost(old(posts).value, reply.value)),
                               showEditDialog := false)
      ensures sent.None? || reply.Failure? || old(posts).None? ==> View() == old(View())
    {
      sent := selectedPost;
      if sent.None? {
        return;
      }
      if reply.Success? && posts.Some? {
        posts := Some(PostLists.ReplacePost(posts.value, reply.value));
        showEditDialog := false;
      }
    }

    /** `deletePost(id)`: once the request completes, every post with that id leaves the list; the total is not changed. */
    method DeletePost(id: int, sent: Outcome)
      modifies this
      ensures sent.Pass? && old(posts).Some? ==>
        View() == old(View()).(posts := Some(PostLists.WithoutPost(old(posts).value, id)))
      ensures sent.Fail? || old(posts).None? ==> View() == old(View())
    {
      if sent.Pass? && posts.Some? {
        posts := Some(PostLists.WithoutPost(posts.value, id));
      }
    }

    /** `openPostDetail(post)`: selects the post and shows the detail dialog. */
    method OpenPostDetail(post: Post)
      modifies this
      ensures View() == old(View()).(selectedPost := Some(post), showPostDetailDialog := true)
    {
      selectedPost := Some(post);
      showPostDetailDialog := true;
    }
  }
}
