/**
 * The post entity hook (`src/entities/post/model/hooks.ts`): the base page
 * query and the search query in the shared query cache, the choice of what
 * to display, and the cache patches the add, update and delete mutations
 * apply on success.
 */
module PostEntity {
  import opened Wrappers
  import opened Entities
  import opened QueryKeys
  import opened PostsApi
  import Text
  import PostLists
  import Lists
  import PostStore
  import UiStore

  /** The updater each post mutation hands to `setQueryData`. */
  datatype PagePatch = Added(data: Post) | Updated(data: Post) | Deleted(id: int)

  /**
   * `{...old, posts: ..., total: ...}` for each mutation: add puts the reply
   * first and counts it, update replaces by id and keeps the count, delete
   * filters by id and takes one off the count even when nothing matched.
   */
  function ApplyPatch(page: PostsPage, patch: PagePatch): (r: PostsPage)
    ensures patch.Added? ==> |r.posts| == |page.posts| + 1 && r.posts[0] == patch.data && r.posts[1..] == page.posts
    ensures patch.Added? ==> r.total == page.total + 1
    ensures patch.Updated? ==> |r.posts| == |page.posts| && r.total == page.total
    ensures patch.Updated? ==> forall i :: 0 <= i < |page.posts| ==>
      r.posts[i] == if page.posts[i].id == patch.data.id then patch.data else page.posts[i]
    ensures patch.Deleted? ==> r.total == page.total - 1
    ensures patch.Deleted? ==> forall i :: 0 <= i < |r.posts| ==> r.posts[i].id != patch.id && r.posts[i] in page.posts
    ensures patch.Deleted? ==> forall i :: 0 <= i < |page.posts| && page.posts[i].id != patch.id ==> page.posts[i] in r.posts
  {
    match patch
    case Added(data) => page.(posts := [data] + page.posts, total := page.total + 1)
    case Updated(data) => page.(posts := PostLists.ReplacePost(page.posts, data))
    case Deleted(id) => page.(posts := PostLists.WithoutPost(page.posts, id), total := page.total - 1)
  }

  /** The patch applied to the entry under `key`; an absent entry stays absent, other entries are untouched. */
  function PatchPages(pages: map<QueryKey, PostsPage>, key: QueryKey, patch: PagePatch): (r: map<QueryKey, PostsPage>)
    ensures r.Keys == pages.Keys
    ensures key in pages ==> r[key] == ApplyPatch(pages[key], patch)
    ensures forall k :: k in pages && k != key ==> r[k] == pages[k]
  {
    SetQueryData(pages, key, (p: PostsPage) => ApplyPatch(p, patch))
  }

  /** Deleting the post an add just put in front restores the page, when no other post had its id. */
  lemma {:induction false} AddThenDelete(page: PostsPage, data: Post)
    requires forall i :: 0 <= i < |page.posts| ==> page.posts[i].id != data.id
    ensures ApplyPatch(ApplyPatch(page, Added(data)), Deleted(data.id)) == page
  {
    var keep := (p: Post) => p.id != data.id;
    Lists.FilterAppend([data], page.posts, keep);
    Lists.FilterKeepsAll(page.posts, keep);
    assert Lists.Filter([data], keep) == [];
  }

  /** Applying the same update twice is applying it once. */
  lemma UpdateIdempotent(page: PostsPage, data: Post)
    ensures ApplyPatch(ApplyPatch(page, Updated(data)), Updated(data)) == ApplyPatch(page, Updated(data))
  {
    PostLists.ReplaceIdempotent(page.posts, data);
  }

  /**
   * `currentData`, then `posts || []` and `total || 0`: the search reply is
   * shown iff the search is active and the reply has a `posts` field; else
   * the base page, or an empty page while there is none.
   */
  function CurrentData(isSearchActive: bool, search: Option<SearchReply>, page: Option<PostsPage>): (r: PostsPage)
    ensures isSearchActive && search.Some? && search.value.posts.Some? ==>
      r == PostsPage(search.value.posts.value, search.value.total.GetOr(0))
    ensures !(isSearchActive && search.Some? && search.value.posts.Some?) && page.Some? ==> r == page.value
    ensures !(isSearchActive && search.Some? && search.value.posts.Some?) && page.None? ==> r == PostsPage([], 0)
  {
    if isSearchActive && search.Some? && search.value.posts.Some? then
      PostsPage(search.value.posts.value, search.value.total.GetOr(0))
    else page.GetOr(PostsPage([], 0))
  }

  /** The request a refetch issues. */
  datatype Request = FetchPaged(skip: int, limit: int) | FetchByTag(tag: string) | FetchSearch(query: string)

  /** The base query's `queryFn`: the by-tag fetch for a non-empty tag other than `"all"`, else the paged fetch. */
  function BaseRequest(skip: int, limit: int, tag: string): (r: Request)
    ensures r.FetchByTag? <==> tag != "" && tag != "all"
    ensures r.FetchByTag? ==> r.tag == tag
    ensures !r.FetchByTag? ==> r == FetchPaged(skip, limit)
  {
    if tag != "" && tag != "all" then FetchByTag(tag) else FetchPaged(skip, limit)
  }

  /**
   * One rendering of the hook: its arguments, the stores it reads and
   * writes, the part of the query cache it uses (base pages, search replies,
   * stale marks) and its `isSearchActive` state.
   */
  class Hook {
    const skip: int
    const limit: int
    const searchQuery: string
    const selectedTag: string
    const sortOrder: Option<string>
    const store: PostStore.Store
    const ui: UiStore.Store
    var pages: map<QueryKey, PostsPage>
    var searches: map<QueryKey, SearchReply>
    var stale: set<QueryKey>
    var isSearchActive: bool

    /** `["posts", skip, limit, selectedTag, sortOrder]` */
    function Key(): QueryKey {
      PostsKey(skip, limit, selectedTag, sortOrder)
    }

    /** The `posts` and `total` the hook returns. */
    function Shown(): (r: PostsPage)
      reads this
      ensures !isSearchActive && Key() in pages ==> r == pages[Key()]
      ensures !isSearchActive && Key() !in pages ==> r == PostsPage([], 0)
      ensures isSearchActive && SearchKey(searchQuery) in searches && searches[SearchKey(searchQuery)].posts.Some? ==>
        r.posts == searches[SearchKey(searchQuery)].posts.value
        && r.total == searches[SearchKey(searchQuery)].total.GetOr(0)
      ensures isSearchActive && !(SearchKey(searchQuery) in searches && searches[SearchKey(searchQuery)].posts.Some?) ==>
        r == (if Key() in pages then pages[Key()] else PostsPage([], 0))
    {
      CurrentData(isSearchActive, GetQueryData(searches, SearchKey(searchQuery)), GetQueryData(pages, Key()))
    }

    constructor (skip: int, limit: int, searchQuery: string, selectedTag: string, sortOrder: Option<string>,
                 store: PostStore.Store, ui: UiStore.Store,
                 pages: map<QueryKey, PostsPage>, searches: map<QueryKey, SearchReply>)
      ensures this.skip == skip && this.limit == limit && this.searchQuery == searchQuery
      ensures this.selectedTag == selectedTag && this.sortOrder == sortOrder
      ensures this.store == store && this.ui == ui
      ensures this.pages == pages && this.searches == searches && stale == {} && !isSearchActive
    {
      this.skip, this.limit, this.searchQuery := skip, limit, searchQuery;
      this.selectedTag, this.sortOrder := selectedTag, sortOrder;
      this.store, this.ui := store, ui;
      this.pages, this.searches, stale, isSearchActive := pages, searches, {}, false;
    }

    /** The base query's fetch completing: a reply is cached under the current key, a failure leaves the cache. */
    method LoadPage(reply: Result<PostsPage>)
      modifies this
      ensures reply.Success? ==> pages == old(pages)[Key() := reply.value]
      ensures reply.Failure? ==> pages == old(pages)
      ensures searches == old(searches) && stale == old(stale) && isSearchActive == old(isSearchActive)
    {
      if reply.Success? {
        pages := pages[Key() := reply.value];
      }
    }

    /** The search query's fetch completing: the reply is cached as received under `["posts", "search", searchQuery]`. */
    method LoadSearch(reply: Result<SearchReply>)
      modifies this
      ensures reply.Success? ==> searches == old(searches)[SearchKey(searchQuery) := reply.value]
      ensures reply.Failure? ==> searches == old(searches)
      ensures pages == old(pages) && stale == old(stale) && isSearchActive == old(isSearchActive)
    {
      if reply.Success? {
        searches := searches[SearchKey(searchQuery) := reply.value];
      }
    }

    /**
     * `addPost()`: sends the store's form; on success the reply is put in
     * front of the cached page, the add dialog closes and the form resets.
     */
    method AddPost(reply: Result<Post>) returns (sent: PostForm)
      modifies this, store, ui
      ensures sent == old(store.newPost)
      ensures reply.Success? ==> pages == PatchPages(old(pages), Key(), Added(reply.value))
      ensures reply.Success? ==> ui.View() == old(ui.View()).(showAddPostDialog := false)
      ensures reply.Success? ==> store.View() == old(store.View()).(newPost := InitialNewPost)
      ensures reply.Failure? ==> pages == old(pages) && ui.View() == old(ui.View()) && store.View() == old(store.View())
      ensures searches == old(searches) && stale == old(stale) && isSearchActive == old(isSearchActive)
    {
      sent := store.newPost;
      if reply.Success? {
        pages := PatchPages(pages, Key(), Added(reply.value));
        ui.SetShowAddPostDialog(false);
        store.ResetNewPost();
      }
    }

    /**
     * `updatePost()`: nothing without a selected post; otherwise sends it,
     * and on success replaces it in the cached page and closes the edit dialog.
     */
    method UpdatePost(reply: Result<Post>) returns (sent: Option<Post>)
      modifies this, ui
      ensures sent == old(store.selectedPost)
      ensures sent.Some? && reply.Success? ==> pages == PatchPages(old(pages), Key(), Updated(reply.value))
      ensures sent.Some? && reply.Success? ==> ui.View() == old(ui.View()).(showEditPostDialog := false)
      ensures sent.None? || reply.Failure? ==> pages == old(pages) && ui.View() == old(ui.View())
      ensures searches == old(searches) && stale == old(stale) && isSearchActive == old(isSearchActive)
    {
      sent := store.selectedPost;
      if sent.Some? && reply.Success? {
        pages := PatchPages(pages, Key(), Updated(reply.value));
        ui.SetShowEditPostDialog(false);
      }
    }

    /** `deletePost(id)`: on success the id the mutation was given is filtered out of the cached page. */
    method DeletePost(id: int, sent: Outcome)
      modifies this
      ensures sent.Pass? ==> pages == PatchPages(old(pages), Key(), Deleted(id))
      ensures sent.Fail? ==> pages == old(pages)
      ensures searches == old(searches) && stale == old(stale) && isSearchActive == old(isSearchActive)
    {
      var reply := DeletePostApi(id, sent);
      if reply.Success? {
        pages := PatchPages(pages, Key(), Deleted(id));
      }
    }

    /**
     * `searchPosts(query)`: a query that trims to nothing turns the search
     * off and refetches the base page; any other turns it on and refetches
     * the search query, which is keyed by the hook's own `searchQuery`.
     */
    method SearchPosts(query: string) returns (request: Request)
      modifies this
      ensures isSearchActive <==> !Text.IsBlank(query)
      ensures !Text.IsBlank(query) ==> request == FetchSearch(searchQuery)
      ensures Text.IsBlank(query) ==> request == BaseRequest(skip, limit, selectedTag)
      ensures pages == old(pages) && searches == old(searches) && stale == old(stale)
    {
      Text.TrimEmptyIffBlank(query);
      if Text.Trim(query) != [] {
        isSearchActive := true;
        request := FetchSearch(searchQuery);
      } else {
        isSearchActive := false;
        request := BaseRequest(skip, limit, selectedTag);
      }
    }

    /**
     * `fetchPostsByTag(tag)`: a non-empty tag other than `"all"` marks stale
     * every cached entry under `["posts", skip, limit, tag]`; otherwise the
     * base page is refetched.
     */
    method FetchPostsByTag(tag: string) returns (request: Option<Request>)
      modifies this
      ensures tag != "" && tag != "all" ==>
        request.None? && stale == Invalidate(old(stale), old(pages.Keys + searches.Keys), TagPrefix(skip, limit, tag))
      ensures !(tag != "" && tag != "all") ==> request == Some(BaseRequest(skip, limit, selectedTag)) && stale == old(stale)
      ensures pages == old(pages) && searches == old(searches) && isSearchActive == old(isSearchActive)
    {
      if tag != "" && tag != "all" {
        stale := Invalidate(stale, pages.Keys + searches.Keys, TagPrefix(skip, limit, tag));
        request := None;
      } else {
        request := Some(BaseRequest(skip, limit, selectedTag));
      }
    }

    /** `openPostDetail(post)`: selects the post and shows the detail dialog. */
    method OpenPostDetail(post: Post)
      modifies store, ui
      ensures store.View() == old(store.View()).(selectedPost := Some(post))
      ensures ui.View() == old(ui.View()).(showPostDetailDialog := true)
    {
      store.SetSelectedPost(Some(post));
      ui.SetShowPostDetailDialog(true);
    }
  }

  /** A by-tag refresh for the hook's own tag reaches its current page entry under every sort order. */
  lemma TagRefreshReachesCurrentPage(skip: int, limit: int, tag: string, order: Option<string>,
                                     stale: set<QueryKey>, present: set<QueryKey>)
    requires PostsKey(skip, limit, tag, order) in present
    ensures PostsKey(skip, limit, tag, order) in Invalidate(stale, present, TagPrefix(skip, limit, tag))
  {
    TagPrefixReach(skip, limit, tag, skip, limit, tag, order, "");
  }
}
