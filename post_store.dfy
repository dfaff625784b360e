/**
 * The post store (`src/shared/stores/postStore.ts`): the selected post, the
 * new-post form, the four list filters and the search state machine over
 * `searchResults`, `isSearchActive` and `hasSearched`.
 */
module PostStore {
  import opened Wrappers
  import opened Entities
  import Text
  import PostsApi

  /** `Partial<PostFormData>`: each field either supplied or not. */
  datatype PostFormPatch = PostFormPatch(title: Option<string>, body: Option<string>, userId: Option<int>)

  /** `{...form, ...patch}`: the supplied fields overwrite, the others are kept. */
  function MergePostForm(form: PostForm, patch: PostFormPatch): (r: PostForm)
    ensures patch.title.Some? ==> r.title == patch.title.value
    ensures patch.title.None? ==> r.title == form.title
    ensures patch.body.Some? ==> r.body == patch.body.value
    ensures patch.body.None? ==> r.body == form.body
    ensures patch.userId.Some? ==> r.userId == patch.userId.value
    ensures patch.userId.None? ==> r.userId == form.userId
  {
    PostForm(patch.title.GetOr(form.title), patch.body.GetOr(form.body), patch.userId.GetOr(form.userId))
  }

  /** Merging a patch whose fields are all supplied replaces the whole form. */
  lemma MergeFullPatch(form: PostForm, title: string, body: string, userId: int)
    ensures MergePostForm(form, PostFormPatch(Some(title), Some(body), Some(userId))) == PostForm(title, body, userId)
  {
  }

  /** The four list filters. */
  datatype Filters = Filters(searchQuery: string, selectedTag: string, sortBy: string, sortOrder: string)

  /** No search text, no tag, no sort key, ascending. */
  const DefaultFilters := Filters("", "", "", "asc")

  datatype SearchState = SearchState(results: Option<seq<Post>>, isSearchActive: bool, hasSearched: bool)

  /** No results, no search shown, no search run. */
  const Cleared := SearchState(None, false, false)

  /**
   * The state `searchPosts(query)` ends in: a query that trims to nothing
   * clears the search without a request; otherwise the reply's posts (or
   * `[]` when the reply has none or the request fails) are shown.
   */
  function SearchOutcome(query: string, reply: Result<PostsApi.SearchReply>): (r: SearchState)
    ensures Text.IsBlank(query) ==> r == Cleared
    ensures !Text.IsBlank(query) ==> r.isSearchActive && r.hasSearched
    ensures !Text.IsBlank(query) && reply.Success? ==> r.results == Some(reply.value.posts.GetOr([]))
    ensures !Text.IsBlank(query) && reply.Failure? ==> r.results == Some([])
  {
    Text.TrimEmptyIffBlank(query);
    if Text.Trim(query) == [] then Cleared
    else if reply.Failure? then SearchState(Some([]), true, true)
    else SearchState(Some(reply.value.posts.GetOr([])), true, true)
  }

  /** Every search that runs a request leaves results present and both flags set. */
  lemma SearchFlagsAgree(query: string, reply: Result<PostsApi.SearchReply>)
    ensures SearchOutcome(query, reply).isSearchActive == SearchOutcome(query, reply).hasSearched
    ensures SearchOutcome(query, reply).results.Some? <==> SearchOutcome(query, reply).isSearchActive
  {
  }

  datatype PostState = PostState(selectedPost: Option<Post>, newPost: PostForm, filters: Filters, search: SearchState)

  const Initial := PostState(None, InitialNewPost, DefaultFilters, Cleared)

  class Store {
    var selectedPost: Option<Post>
    var newPost: PostForm
    var searchQuery: string
    var selectedTag: string
    var sortBy: string
    var sortOrder: string
    var searchResults: Option<seq<Post>>
    var isSearchActive: bool
    var hasSearched: bool

    function FilterView(): Filters
      reads this
    {
      Filters(searchQuery, selectedTag, sortBy, sortOrder)
    }

    function SearchView(): SearchState
      reads this
    {
      SearchState(searchResults, isSearchActive, hasSearched)
    }

    function View(): PostState
      reads this
    {
      PostState(selectedPost, newPost, FilterView(), SearchView())
    }

    constructor ()
      ensures View() == Initial
    {
      selectedPost, newPost := None, InitialNewPost;
      searchQuery, selectedTag, sortBy, sortOrder := "", "", "", "asc";
      searchResults, isSearchActive, hasSearched := None, false, false;
    }

    method SetSelectedPost(post: Option<Post>)
      modifies this
      ensures View() == old(View()).(selectedPost := post)
    {
      selectedPost := post;
    }

    method SetNewPost(post: PostForm)
      modifies this
      ensures View() == old(View()).(newPost := post)
    {
      newPost := post;
    }

    method UpdateNewPost(patch: PostFormPatch)
      modifies this
      ensures View() == old(View()).(newPost := MergePostForm(old(newPost), patch))
    {
      newPost := MergePostForm(newPost, patch);
    }

    method ResetNewPost()
      modifies this
      ensures View() == old(View()).(newPost := InitialNewPost)
    {
      newPost := InitialNewPost;
    }

    method SetSearchQuery(query: string)
      modifies this
      ensures View() == old(View()).(filters := old(FilterView()).(searchQuery := query))
    {
      searchQuery := query;
    }

    /** Changes the tag only; the search state is left as it was. */
    method SetSelectedTag(tag: string)
      modifies this
      ensures View() == old(View()).(filters := old(FilterView()).(selectedTag := tag))
    {
      selectedTag := tag;
    }

    method SetSortBy(key: string)
      modifies this
      ensures View() == old(View()).(filters := old(FilterView()).(sortBy := key))
    {
      sortBy := key;
    }

    method SetSortOrder(order: string)
      modifies this
      ensures View() == old(View()).(filters := old(FilterView()).(sortOrder := order))
    {
      sortOrder := order;
    }

    method ResetFilters()
      modifies this
      ensures View() == old(View()).(filters := DefaultFilters)
    {
      searchQuery, selectedTag, sortBy, sortOrder := "", "", "", "asc";
    }

    /**
     * `searchPosts(query)`, with the search request's reply as a parameter.
     * `requested` tells whether the request was sent at all.
     */
    method SearchPosts(query: string, reply: Result<PostsApi.SearchReply>) returns (requested: bool)
      modifies this
      ensures requested <==> !Text.IsBlank(query)
      ensures View() == old(View()).(search := SearchOutcome(query, reply))
    {
      Text.TrimEmptyIffBlank(query);
      if Text.Trim(query) == [] {
        searchResults, isSearchActive, hasSearched := None, false, false;
        return false;
      }
      requested := true;
      match reply {
        case Success(data) =>
          searchResults, isSearchActive, hasSearched := Some(data.posts.GetOr([])), true, true;
        case Failure(_) =>
          searchResults, isSearchActive, hasSearched := Some([]), true, true;
      }
    }

    /** Ends in the blank-query outcome whatever the previous state. */
    method ClearSearch()
      modifies this
      ensures View() == old(View()).(search := Cleared)
      ensures SearchView() == SearchOutcome("", Failure(""))
    {
      searchResults, isSearchActive, hasSearched := None, false, false;
    }
  }
}
