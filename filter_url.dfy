/**
 * `src/pages/posts-manager/PostsManagerPage.tsx`: the filter state in the
 * URL. `updateURL` writes `search`, `tag`, `sortBy` and `sortOrder` into
 * fresh parameters, each only when non-empty; the effect on a URL change
 * reads them back, defaulting a missing `sortOrder` to `"asc"` and the
 * others to `""`.
 */
module FilterUrl {
  import Utils
  import PostStore

  /** The parameters `updateURL` navigates to. */
  function FilterQuery(f: PostStore.Filters): (r: map<string, string>)
    ensures forall k :: k in r ==> k == "search" || k == "tag" || k == "sortBy" || k == "sortOrder"
    ensures "search" in r <==> f.searchQuery != ""
    ensures "tag" in r <==> f.selectedTag != ""
    ensures "sortBy" in r <==> f.sortBy != ""
    ensures "sortOrder" in r <==> f.sortOrder != ""
    ensures forall k :: k in r ==> r[k] != ""
    ensures "search" in r ==> r["search"] == f.searchQuery
    ensures "tag" in r ==> r["tag"] == f.selectedTag
    ensures "sortBy" in r ==> r["sortBy"] == f.sortBy
    ensures "sortOrder" in r ==> r["sortOrder"] == f.sortOrder
  {
    var e1: map<string, string> := if f.searchQuery != "" then map["search" := f.searchQuery] else map[];
    var e2 := if f.selectedTag != "" then e1["tag" := f.selectedTag] else e1;
    var e3 := if f.sortBy != "" then e2["sortBy" := f.sortBy] else e2;
    if f.sortOrder != "" then e3["sortOrder" := f.sortOrder] else e3
  }

  /** The filters the URL→state effect writes into the store. */
  function ParseFilters(entries: map<string, string>): (r: PostStore.Filters)
    ensures "search" !in entries ==> r.searchQuery == ""
    ensures "tag" !in entries ==> r.selectedTag == ""
    ensures "sortBy" !in entries ==> r.sortBy == ""
    ensures "sortOrder" !in entries ==> r.sortOrder == "asc"
    ensures r.sortOrder != ""
  {
    PostStore.Filters(
      Utils.GetOr(entries, "search", ""),
      Utils.GetOr(entries, "tag", ""),
      Utils.GetOr(entries, "sortBy", ""),
      Utils.GetOr(entries, "sortOrder", "asc"))
  }

  /** Reading back the URL of a state gives that state, except that an empty `sortOrder` comes back as `"asc"`. */
  lemma ParseSerialize(f: PostStore.Filters)
    ensures f.sortOrder != "" ==> ParseFilters(FilterQuery(f)) == f
    ensures f.sortOrder == "" ==> ParseFilters(FilterQuery(f)) == f.(sortOrder := "asc")
  {
  }

  /** The state→URL→state loop is stable after one round, and the URL it writes is unchanged iff `sortOrder` is non-empty. */
  lemma SerializeFixedPoint(f: PostStore.Filters)
    ensures ParseFilters(FilterQuery(ParseFilters(FilterQuery(f)))) == ParseFilters(FilterQuery(f))
    ensures FilterQuery(ParseFilters(FilterQuery(f))) == FilterQuery(f) <==> f.sortOrder != ""
  {
    ParseSerialize(f);
    var g := ParseFilters(FilterQuery(f));
    ParseSerialize(g);
    if f.sortOrder == "" {
      assert "sortOrder" in FilterQuery(g) && "sortOrder" !in FilterQuery(f);
    }
  }

  /** `updateURL` builds the parameters with four successive `updateURLParam` calls. */
  method UpdateURL(store: PostStore.Store) returns (query: map<string, string>)
    ensures query == FilterQuery(store.FilterView())
  {
    var f := store.FilterView();
    var params := new Utils.SearchParams();
    Utils.UpdateURLParam(params, "search", Utils.StrVal(f.searchQuery));
    Utils.UpdateURLParam(params, "tag", Utils.StrVal(f.selectedTag));
    Utils.UpdateURLParam(params, "sortBy", Utils.StrVal(f.sortBy));
    Utils.UpdateURLParam(params, "sortOrder", Utils.StrVal(f.sortOrder));
    query := params.entries;
    var spec := FilterQuery(f);
    assert forall k :: k in query <==> k in spec;
    assert forall k :: k in query ==> query[k] == spec[k];
    assert query == spec;
  }

  /** The URL→state effect: search, sortBy, sortOrder, then tag, written through the store's setters. */
  method SyncFromURL(store: PostStore.Store, entries: map<string, string>)
    modifies store
    ensures store.View() == old(store.View()).(filters := ParseFilters(entries))
  {
    store.SetSearchQuery(Utils.GetOr(entries, "search", ""));
    store.SetSortBy(Utils.GetOr(entries, "sortBy", ""));
    store.SetSortOrder(Utils.GetOr(entries, "sortOrder", "asc"));
    store.SetSelectedTag(Utils.GetOr(entries, "tag", ""));
  }
}
