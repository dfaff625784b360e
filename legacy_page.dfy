/**
 * `src/pages/PostsManagerPage.tsx`, the older page: its filter state
 * (`useSearchAndFilter`) is seeded from and re-synced with the URL, the tag
 * click runs three handlers in order, and the add-comment button patches the
 * comment draft.
 */
module LegacyPage {
  import opened Wrappers
  import FilterUrl
  import PostStore
  import Pagination
  import Text
  import UiStore
  import UsePosts
  import opened SharedCommentStore
  import Utils
  import PostsApi
  import Entities

  /** The four filter fields the page keeps as component state. */
  class FilterState {
    var searchQuery: string
    var selectedTag: string
    var sortBy: string
    var sortOrder: string

    function View(): PostStore.Filters
      reads this
    {
      PostStore.Filters(searchQuery, selectedTag, sortBy, sortOrder)
    }

    /** The initial values, read from the location's query with the defaults `""`, `""`, `""`, `"asc"`. */
    constructor (entries: map<string, string>)
      ensures View() == FilterUrl.ParseFilters(entries)
    {
      var f := FilterUrl.ParseFilters(entries);
      searchQuery, selectedTag, sortBy, sortOrder := f.searchQuery, f.selectedTag, f.sortBy, f.sortOrder;
    }

    method SetSearchQuery(query: string)
      modifies this
      ensures View() == old(View()).(searchQuery := query)
    {
      searchQuery := query;
    }

    method SetSelectedTag(tag: string)
      modifies this
      ensures View() == old(View()).(selectedTag := tag)
    {
      selectedTag := tag;
    }

    method SetSortBy(key: string)
      modifies this
      ensures View() == old(View()).(sortBy := key)
    {
      sortBy := key;
    }

    method SetSortOrder(order: string)
      modifies this
      ensures View() == old(View()).(sortOrder := order)
    {
      sortOrder := order;
    }

    /** The effect on a URL change: search, sortBy, sortOrder, then tag, with the same defaults as at mount. */
    method SyncFromURL(entries: map<string, string>)
      modifies this
      ensures View() == FilterUrl.ParseFilters(entries)
    {
      SetSearchQuery(Utils.GetOr(entries, "search", ""));
      SetSortBy(Utils.GetOr(entries, "sortBy", ""));
      SetSortOrder(Utils.GetOr(entries, "sortOrder", "asc"));
      SetSelectedTag(Utils.GetOr(entries, "tag", ""));
    }
  }

  /**
   * A tag click: the tag is selected, that tag's posts are fetched (`page`
   * and `users` are the replies), then the pagination URL is written.
   */
  method TagClick(filters: FilterState, posts: UsePosts.Hook, pagination: Pagination.Pagination, tag: string,
                  page: Result<PostsApi.PostsPage>, users: Result<seq<Entities.Author>>)
    returns (used: UsePosts.Endpoint, query: map<string, string>)
    modifies filters, posts
    ensures filters.View() == old(filters.View()).(selectedTag := tag)
    ensures used == if tag == "" || tag == "all" then UsePosts.Paged(posts.skip, posts.limit) else UsePosts.ByTag(tag)
    ensures page.Success? && users.Success? ==>
      posts.View() == old(posts.View()).(posts := Some(PostsApi.JoinAuthors(page.value.posts, users.value)),
                                         total := Some(page.value.total), loading := false)
    ensures page.Failure? || users.Failure? ==> posts.View() == old(posts.View()).(loading := false)
    ensures query == Pagination.PaginationQuery(pagination.skip, pagination.limit)
  {
    filters.SetSelectedTag(tag);
    used := posts.FetchPostsByTag(tag, page, users);
    query := pagination.UpdateURL();
  }

  /**
   * The URL a tag click writes holds only `skip` and `limit`, so reading
   * it back gives no tag (and the default `"asc"` order).
   */
  lemma TagClickURLDropsFilters(skip: Text.Num, limit: Text.Num)
    ensures FilterUrl.ParseFilters(Pagination.PaginationQuery(skip, limit)) == PostStore.Filters("", "", "", "asc")
  {
    var q := Pagination.PaginationQuery(skip, limit);
    assert "search" !in q && "tag" !in q && "sortBy" !in q && "sortOrder" !in q;
  }

  /**
   * The add-comment button as written: the shared comment store's
   * `setNewComment` stores its argument, so the draft becomes the updater
   * function itself, and the dialog opens.
   */
  method AddCommentClickAsWritten(store: SharedCommentStore.Store, ui: UiStore.Store, postId: int)
    modifies store, ui
    ensures store.View() == old(store.View()).(newComment := Updater(postId))
    ensures ui.View() == old(ui.View()).(showAddCommentDialog := true)
  {
    store.SetNewComment(Updater(postId));
    ui.SetShowAddCommentDialog(true);
  }

  /**
   * After the button as written, submitting the comment sends nothing,
   * whatever the draft held: the stored function has no `postId`. The
   * intended patch of the same draft would be sent for any non-zero post id.
   */
  lemma AsWrittenDraftCannotBeSent(draft: DraftValue, postId: int)
    requires postId != 0
    ensures SharedCommentStore.AddRequestOf(Updater(postId)).None?
    ensures SharedCommentStore.AddRequestOf(Fields(WithDraftField(DraftOf(draft), DraftPostId(postId)))).Some?
  {
    SharedCommentStore.UpdaterBlocksAdd(postId);
  }

  /** The add-comment form's body field: `setNewComment({...newComment, body})`. */
  method BodyChange(store: SharedCommentStore.Store, body: string)
    modifies store
    ensures store.View() == old(store.View()).(newComment := Fields(WithDraftField(DraftOf(old(store.newComment)), DraftBody(body))))
  {
    store.SetNewComment(Fields(WithDraftField(DraftOf(store.newComment), DraftBody(body))));
  }

  /** The draft after each of `bodies` is typed into the body field in turn. */
  function TypedDraft(v: DraftValue, bodies: seq<string>): (r: DraftValue)
    ensures bodies == [] ==> r == v
    ensures bodies != [] ==> r.Fields? && r.draft.body == Some(bodies[|bodies| - 1])
    decreases |bodies|
  {
    if bodies == [] then v
    else TypedDraft(Fields(WithDraftField(DraftOf(v), DraftBody(bodies[0]))), bodies[1..])
  }

  /** Typing into the body field never changes the draft's `postId`, a missing one included. */
  lemma {:induction false} TypedDraftKeepsPostId(v: DraftValue, bodies: seq<string>)
    ensures PostIdOf(TypedDraft(v, bodies)) == PostIdOf(v)
    decreases |bodies|
  {
    if bodies != [] {
      TypedDraftKeepsPostId(Fields(WithDraftField(DraftOf(v), DraftBody(bodies[0]))), bodies[1..]);
    }
  }

  /**
   * Typing a body after the button as written does not repair the draft:
   * spreading the stored function copies nothing, so the typed draft still
   * has no `postId` and submitting it sends nothing.
   */
  lemma AsWrittenTypedDraftCannotBeSent(postId: int, bodies: seq<string>)
    ensures PostIdOf(TypedDraft(Updater(postId), bodies)).None?
    ensures SharedCommentStore.AddRequestOf(TypedDraft(Updater(postId), bodies)).None?
  {
    TypedDraftKeepsPostId(Updater(postId), bodies);
  }

  /** After the intended button, typing a body keeps the post id, so the draft can still be sent. */
  lemma IntendedTypedDraftCanBeSent(draft: DraftValue, postId: int, bodies: seq<string>)
    requires postId != 0
    ensures SharedCommentStore.AddRequestOf(TypedDraft(Fields(WithDraftField(DraftOf(draft), DraftPostId(postId))), bodies)).Some?
  {
    TypedDraftKeepsPostId(Fields(WithDraftField(DraftOf(draft), DraftPostId(postId))), bodies);
  }

  /** The button as intended: the draft's `postId` is set and its other fields kept. */
  method AddCommentClick(store: SharedCommentStore.Store, ui: UiStore.Store, postId: int)
    modifies store, ui
    ensures store.View() == old(store.View()).(newComment := Fields(WithDraftField(DraftOf(old(store.newComment)), DraftPostId(postId))))
    ensures ui.View() == old(ui.View()).(showAddCommentDialog := true)
  {
    store.UpdateNewComment(DraftPostId(postId));
    ui.SetShowAddCommentDialog(true);
  }

  /** After the intended button, a draft for a post with a non-zero id is sent with its body and user kept. */
  lemma IntendedDraftCanBeSent(draft: DraftValue, postId: int)
    requires postId != 0
    ensures SharedCommentStore.AddRequestOf(Fields(WithDraftField(DraftOf(draft), DraftPostId(postId))))
         == Some(AddRequest(DraftOf(draft).body, postId, DraftOf(draft).userId))
  {
  }
}
