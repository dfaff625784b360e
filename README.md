# Posts manager client — a Dafny model

This project models the deterministic, sequential logic of a React admin
client for a posts/comments/users REST API (the DummyJSON-style `/posts`,
`/comments` and `/users` endpoints). It covers five areas:

- **Cache reconciliation.** After a create, update, delete or like succeeds,
  the post and comment hooks patch the query cache:
  - post pages `{posts, total}` are keyed by `["posts", skip, limit, tag, sortOrder]`;
  - the aggregate `{postId: Comment[]}` entry sits under `["comments"]`;
  - each post's list sits under `["comments", postId]`.
- **View derivation:**
  - the search/base gate of the post hook and of the post table;
  - the table's client-side comparator sort (by id, lower-cased title, or
    likes + dislikes, in either direction) over a copy of the list.
- **Client stores.** The zustand stores (posts, two comment stores, UI,
  user) and the component-state hooks (`usePosts`, `useComments`,
  `useUsers`, the two entity hooks) are classes. Their fields are the
  store's fields, and each action is a method whose contract gives the new
  state.
- **URL query state.**
  - The filter serialiser (`search`, `tag`, `sortBy`, `sortOrder`) and its
    parse with defaults.
  - The pagination serialiser (`skip`, `limit`) and its `parseInt` parse.
  - `updateURLParam`.
  - The older page's URL→state effect and tag-click sequence.
- **Pure helpers:**
  - the author join (`users.find(u => u.id === post.userId)`);
  - `truncateText`;
  - `deletePostAPI`'s echo of its id.

Network replies are parameters of the operations, as `Result`/`Outcome`
values. Query-cache entries are Dafny maps, and JavaScript numbers read
from the URL are `Num` (an integer or NaN). The JavaScript behaviour the
model depends on is written out in Dafny:

- `parseInt`, including leading white space, sign, `0x` prefixes and NaN;
- `Number#toString` on integers (the double range is listed under "Left out");
- `String#trim`;
- string `<`, as code-unit order;
- `slice` with negative ends;
- truthiness of `""`, `0` and NaN;
- the way a spread of a function copies nothing.

Modules, one per source file or shared concern:

| module | file | models |
|---|---|---|
| `Wrappers` | wrappers.dfy | `Option`, `Result` |
| `Entities` | entities.dfy | post, author, user, comment records and forms |
| `Text` | text.dfy | trim, ASCII lower case, string order, `toString`, `parseInt` |
| `Lists` | lists.dfy | `Array#map`, `Array#filter` |
| `Sorting` | sorting.dfy | the stable comparator sort |
| `QueryKeys` | query_keys.dfy | query keys, `getQueryData`, `setQueryData`, prefix invalidation |
| `PostsApi` | posts_api.dfy | `src/shared/api/posts.ts` |
| `PostLists` | post_lists.dfy | the post list transforms |
| `PostEntity` | post_entity.dfy | `src/entities/post/model/hooks.ts` |
| `UsePosts` | use_posts.dfy | `src/hooks/usePosts.ts` |
| `CommentCache` | comment_cache.dfy | the `{postId: Comment[]}` updaters |
| `UseComments` | use_comments.dfy | `src/hooks/useComments.ts` |
| `CommentEntity` | comment_entity.dfy | `src/entities/comment/model/hooks.ts` |
| `PostTable` | post_table.dfy | `src/widgets/post-table/ui/PostTable.tsx` gate and sort |
| `PostStore` | post_store.dfy | `src/shared/stores/postStore.ts` |
| `SharedCommentStore` | shared_comment_store.dfy | `src/shared/stores/commentStore.ts` |
| `CommentStore` | comment_store.dfy | `src/stores/commentStore.ts` |
| `UiStore` | ui_store.dfy | `src/stores/uiStore.ts` |
| `UserStore` | user_store.dfy | `src/stores/userStore.ts` |
| `Utils` | utils.dfy | `updateURLParam`, `truncateText` |
| `Pagination` | pagination.dfy | `src/hooks/usePagination.ts` |
| `FilterUrl` | filter_url.dfy | `src/pages/posts-manager/PostsManagerPage.tsx` URL sync |
| `LegacyPage` | legacy_page.dfy | `src/pages/PostsManagerPage.tsx` filter state, tag click, add-comment button |
| `UseUsers` | use_users.dfy | `src/hooks/useUsers.ts` |
| `UserEntity` | user_entity.dfy | `src/entities/user/model/hooks.ts` |

Behaviour of the code that a reader might not expect, and that the model
keeps:

- **"asc" in the URL.** The filter serialiser writes `sortOrder=asc` to the
  URL: it writes every non-empty filter, the default included.
- **`usePosts` leaves `total` alone.** Its add and delete handlers do not
  change `total`; only the fetch handlers set it.
- **Untrimmed empty query.** `usePosts.searchPosts` tests `!query` without
  trimming, so a query of blanks is sent to the search endpoint.
- **The fixed point depends on `sortOrder`.** The state→URL→state→URL loop
  reaches a fixed point only after one parse. Serialising the parsed
  filters again gives the original query exactly when `sortOrder` is
  non-empty, because an empty `sortOrder` is read back as `"asc"`
  (`FilterUrl.SerializeFixedPoint`).
- **The tag click can drop the filters.** On the older page a tag click
  calls the pagination `updateURL`. That URL carries only `skip` and
  `limit`. The URL→state effect runs only when `location.search` changes;
  when it does, reading the new URL back resets the tag and the other
  filters (`LegacyPage.TagClickURLDropsFilters`). When the address already
  held exactly that query, the effect does not run and the clicked tag
  stays selected.
- **`useUsers` caches by request.** It caches the fetched user under the
  requested id, not under the reply's own id.

## Model

| member | source | states |
|---|---|---|
| Text.TrimStart | src/shared/stores/postStore.ts:89 | the result is a suffix of the input; everything dropped is white space and the result does not start with white space |
| Text.TrimEnd | src/shared/stores/postStore.ts:89 | the result is a prefix of the input; everything dropped is white space and the result does not end with white space |
| Text.Trim | src/shared/stores/postStore.ts:89 | `s.trim()` is the part of `s` left after a leading run and a trailing run of white space are removed, the leading run being what `TrimStart` drops; it neither starts nor ends with white space |
| Text.TrimEmptyIffBlank | src/entities/post/model/hooks.ts:130 | `query.trim()` is falsy exactly when every character of the query is white space |
| Text.LowerChar | src/widgets/post-table/ui/PostTable.tsx:49-50 | an ASCII capital becomes the letter 32 code points above it, a lower-case letter; every other character is unchanged |
| Text.Lower | src/widgets/post-table/ui/PostTable.tsx:49-50 | `toLowerCase` keeps the length and lower-cases each character in place |
| Text.LowerIdempotent | src/widgets/post-table/ui/PostTable.tsx:49-50 | lower-casing keeps the length and lower-casing twice is lower-casing once |
| Text.LexLess | src/widgets/post-table/ui/PostTable.tsx:61 | string `<` never holds between equal strings; a proper prefix is less than the longer string; otherwise the first differing code unit decides |
| Text.LexIrreflexive | src/widgets/post-table/ui/PostTable.tsx:61 | string `<` never holds between a string and itself |
| Text.LexTransitive | src/widgets/post-table/ui/PostTable.tsx:61 | string `<` is transitive |
| Text.LexTrichotomy | src/widgets/post-table/ui/PostTable.tsx:61-63 | of two strings, one is less than the other or they are equal |
| Text.LexAsymmetric | src/widgets/post-table/ui/PostTable.tsx:61-63 | string `<` never holds in both directions |
| Text.DigitChar | src/hooks/usePagination.ts:23-24 | a decimal digit value maps to a decimal digit character |
| Text.DigitValue | src/hooks/usePagination.ts:17-18 | `0`–`9` have the values 0–9, `a`–`f` and `A`–`F` the values 10–15, as `parseInt` reads them after `0x` |
| Text.NatToText | src/hooks/usePagination.ts:23-24 | a natural number prints as a non-empty run of decimal digits without a leading zero (except `0` itself) |
| Text.IntToText | src/hooks/usePagination.ts:23-24 | `n.toString()` is non-empty and does not start with white space, so `parseInt` reads it from its first character (its value is stated by `Text.ParseIntToText`) |
| Text.DigitRun | src/hooks/usePagination.ts:17-18 | the longest prefix made of digits of the radix: every character in it is a digit and the next one is not |
| Text.ParseMagnitude | src/hooks/usePagination.ts:17-18 | what `parseInt` reads after the sign is NaN or a non-negative integer |
| Text.ParseInt | src/hooks/usePagination.ts:17-18 | `parseInt` of a blank string is NaN, and a negative result needs a leading `-` after the white space |
| Text.NatToTextValue | src/hooks/usePagination.ts:23-24 | the decimal digits printed for `n` have the value `n` |
| Text.MagnitudeOfText | src/hooks/usePagination.ts:31 | the decimal text of `n` is read back as `n` |
| Text.ParseIntToText | src/hooks/usePagination.ts:23-32 | `parseInt(n.toString())` is `n` for every integer, negative ones included |
| Lists.Map | src/shared/api/posts.ts:13-16 | the result has the input's length and holds `f` of each element at the same index |
| Lists.Filter | src/hooks/usePosts.ts:169 | the filter never lengthens the list |
| Lists.FilterSubMultiset | src/hooks/usePosts.ts:169 | the filter keeps only elements of the input, each at most as often as in the input |
| Lists.FilterPasses | src/hooks/usePosts.ts:169 | every kept element passes the predicate |
| Lists.FilterComplete | src/hooks/usePosts.ts:169 | every element of the input that passes is kept |
| Lists.FilterLength | src/hooks/usePosts.ts:169 | nothing is dropped exactly when every element passes |
| Lists.FilterSpec | src/hooks/usePosts.ts:169 | the four filter facts together |
| Lists.FilterAppend | src/hooks/usePosts.ts:169 | filtering keeps order: it distributes over concatenation |
| Lists.FilterKeepsAll | src/hooks/usePosts.ts:169 | a filter that rejects nothing returns its input unchanged |
| Sorting.Insert | src/widgets/post-table/ui/PostTable.tsx:39 | inserting into a list lengthens it by one |
| Sorting.InsertPermutes | src/widgets/post-table/ui/PostTable.tsx:39 | inserting adds exactly the inserted element |
| Sorting.Sort | src/widgets/post-table/ui/PostTable.tsx:39 | the sorted copy has the input's length |
| Sorting.SortPermutes | src/widgets/post-table/ui/PostTable.tsx:39 | the sorted copy is a permutation of the input |
| Sorting.InsertLowerBound | src/widgets/post-table/ui/PostTable.tsx:39 | a value that may precede the inserted element and all of the list may precede all of the result |
| Sorting.InsertSorted | src/widgets/post-table/ui/PostTable.tsx:39 | inserting into a sorted list under a total preorder keeps it sorted |
| Sorting.SortSorted | src/widgets/post-table/ui/PostTable.tsx:39 | under a total preorder the result is sorted |
| Sorting.WithKeyAppend | src/widgets/post-table/ui/PostTable.tsx:39 | the elements with a given key, taken from a concatenation, are those of each part in turn |
| Sorting.InsertStable | src/widgets/post-table/ui/PostTable.tsx:39 | inserting puts the new element in front of the elements with its key and keeps their order |
| Sorting.SortStable | src/widgets/post-table/ui/PostTable.tsx:39-65 | for every key, the elements with that key keep their input order (the stability `Array#sort` guarantees) |
| Sorting.SortAllEqual | src/widgets/post-table/ui/PostTable.tsx:56-57 | a relation under which everything may precede everything leaves the list as it is |
| QueryKeys.Invalidate | src/entities/comment/model/hooks.ts:94 | `invalidateQueries` marks stale exactly the present keys under the prefix, on top of what was already stale |
| QueryKeys.GetQueryData | src/entities/post/model/hooks.ts:67 | the cached value for a present key, nothing for an absent one |
| QueryKeys.SetQueryData | src/entities/post/model/hooks.ts:76-83 | an updater changes only its own key's entry; an absent entry stays absent |
| QueryKeys.TagPrefixReach | src/entities/post/model/hooks.ts:142 | the `["posts", skip, limit, tag]` prefix reaches the page entry for that tag under every sort order, and never a search entry |
| QueryKeys.CommentsPrefixReach | src/entities/comment/model/hooks.ts:94 | the `["comments"]` prefix reaches the aggregate entry and every per-post entry |
| PostsApi.FindUser | src/shared/api/posts.ts:15 | the first user whose id equals the post's `userId`, or none when no user has it |
| PostsApi.JoinAuthors | src/shared/api/posts.ts:13-16 | the joined list has the same length and order; each post keeps its fields and gets the first matching user as author |
| PostsApi.FetchPostsApi | src/shared/api/posts.ts:4-19 | either reply failing fails the call; on success `total` is the page's total and the posts are the joined page |
| PostsApi.FetchPostsByTagApi | src/shared/api/posts.ts:29-44 | the by-tag fetch applies the identical join |
| PostsApi.DeletePostApi | src/shared/api/posts.ts:67-72 | a completed delete answers with exactly the id it was given |
| PostLists.ReplacePost | src/entities/post/model/hooks.ts:99 | every post with the reply's id becomes the reply; length, order, ids and the other posts are unchanged |
| PostLists.WithoutPost | src/entities/post/model/hooks.ts:118 | only posts without the id are kept and every such post is kept; the length is unchanged exactly when no post had the id |
| PostLists.ReplaceIdempotent | src/entities/post/model/hooks.ts:99 | applying the same update twice equals applying it once |
| PostLists.ReplaceAbsent | src/entities/post/model/hooks.ts:99 | a reply whose id is on no post leaves the list as it was |
| PostLists.WithoutPostAppend | src/entities/post/model/hooks.ts:118 | removing an id keeps the relative order of the others |
| PostLists.WithoutPostIdempotent | src/entities/post/model/hooks.ts:118 | removing an id a second time changes nothing |
| PostEntity.ApplyPatch | src/entities/post/model/hooks.ts:76-121 | add puts the reply first, keeps the old posts behind it and adds 1 to `total`; update replaces by id and keeps length and total; delete drops the id and takes 1 off `total` even when nothing matched |
| PostEntity.PatchPages | src/entities/post/model/hooks.ts:76-121 | a patch touches only the current page key; an absent page stays absent |
| PostEntity.AddThenDelete | src/entities/post/model/hooks.ts:76-121 | deleting the post an add just put in front restores the page, when no other post had its id |
| PostEntity.UpdateIdempotent | src/entities/post/model/hooks.ts:96-102 | the same update patch applied twice equals applied once |
| PostEntity.CurrentData | src/entities/post/model/hooks.ts:67-69 | the search reply is shown iff the search is active and the reply has `posts` (a missing total shows as 0); otherwise the base page, or an empty page with total 0 while there is none |
| PostEntity.BaseRequest | src/entities/post/model/hooks.ts:43-48 | the by-tag fetch iff the tag is non-empty and not `"all"`, else the paged fetch |
| PostEntity.Hook.Shown | src/entities/post/model/hooks.ts:67-69 | with the search on and a reply holding `posts`, those posts and the reply's total (0 when missing); otherwise, the search on or off, the cached page for the current key, or an empty page with total 0 |
| PostEntity.Hook.constructor | src/entities/post/model/hooks.ts:37-64 | the hook starts with the given key parts and caches, nothing stale and the search off |
| PostEntity.Hook.LoadPage | src/entities/post/model/hooks.ts:41-50 | a page reply is cached under the current key; a failure leaves the cache |
| PostEntity.Hook.LoadSearch | src/entities/post/model/hooks.ts:57-61 | a search reply is cached as received under `["posts", "search", searchQuery]` |
| PostEntity.Hook.AddPost | src/entities/post/model/hooks.ts:73-90 | sends the store's form; on success applies the add patch, closes the add dialog and resets the form; on failure nothing changes |
| PostEntity.Hook.UpdatePost | src/entities/post/model/hooks.ts:93-108 | nothing without a selected post; on success applies the update patch and closes the edit dialog |
| PostEntity.Hook.DeletePost | src/entities/post/model/hooks.ts:111-126 | on success applies the delete patch for the id the mutation was given |
| PostEntity.Hook.SearchPosts | src/entities/post/model/hooks.ts:129-137 | the search turns on iff the query does not trim to empty; an active search refetches the search query, otherwise the base request |
| PostEntity.Hook.FetchPostsByTag | src/entities/post/model/hooks.ts:140-146 | a real tag marks stale every present entry under `["posts", skip, limit, tag]`; `""` or `"all"` refetches the base page |
| PostEntity.Hook.OpenPostDetail | src/entities/post/model/hooks.ts:166-169 | selects the post and shows the detail dialog; nothing else changes |
| PostEntity.TagRefreshReachesCurrentPage | src/entities/post/model/hooks.ts:142 | a by-tag refresh for the hook's own tag marks its cached page stale, whatever the sort order |
| UsePosts.Hook.constructor | src/hooks/usePosts.ts:44-51 | empty list, total 0, not loading, nothing selected, the initial form, all dialogs closed |
| UsePosts.Hook.FetchPosts | src/hooks/usePosts.ts:54-81 | paged endpoint; when both replies arrive the joined posts and the page total are stored; on failure both stay; loading ends false |
| UsePosts.Hook.SearchPosts | src/hooks/usePosts.ts:84-99 | an empty query falls back to the paged fetch; otherwise the reply's `posts` and `total` are stored as received, with no join; failure keeps them |
| UsePosts.Hook.FetchPostsByTag | src/hooks/usePosts.ts:102-127 | `""` and `"all"` fall back to the paged fetch; another tag uses the by-tag endpoint with the same join; failure keeps posts and total |
| UsePosts.Hook.Refresh | src/hooks/usePosts.ts:182-188 | a selected tag fetches by tag (which for `"all"` is the paged fetch); no tag fetches the page |
| UsePosts.Hook.AddPost | src/hooks/usePosts.ts:130-144 | on success the reply is put first, the add dialog closes and the form resets; `total` is unchanged |
| UsePosts.Hook.UpdatePost | src/hooks/usePosts.ts:147-161 | a no-op without a selected post; on success replaces by the reply's id and closes the edit dialog |
| UsePosts.Hook.DeletePost | src/hooks/usePosts.ts:164-173 | every post with the id leaves the list; `total` is unchanged |
| UsePosts.Hook.OpenPostDetail | src/hooks/usePosts.ts:176-179 | selects the post and shows the detail dialog |
| CommentCache.ReplaceComment | src/hooks/useComments.ts:68 | every comment with the reply's id becomes the reply; the length and the other comments are unchanged |
| CommentCache.WithoutComment | src/hooks/useComments.ts:87 | the filter never lengthens a list |
| CommentCache.WithoutCommentSpec | src/hooks/useComments.ts:87 | only comments without the id are kept and every such comment is kept; the length is unchanged exactly when none had the id |
| CommentCache.LikedIn | src/hooks/useComments.ts:106-108 | each comment with the reply's id becomes the reply with the cached like count plus one; the others are unchanged |
| CommentCache.LikeTwice | src/hooks/useComments.ts:106-108 | two likes of one comment add two to each cached copy's count and leave the others alone |
| CommentCache.AppendUnder | src/shared/stores/commentStore.ts:36-42 | the comment goes last in its post's list, which is created when missing; other posts are unchanged |
| CommentCache.AddToAggregate | src/hooks/useComments.ts:44-50 | an absent aggregate stays absent; otherwise the reply goes last under its `postId` and other keys are unchanged |
| CommentCache.UpdateInAggregate | src/hooks/useComments.ts:64-70 | an absent aggregate stays absent; otherwise the reply replaces by id in its post's list (a missing list becomes `[]`) and other keys are unchanged |
| CommentCache.DeletedEverywhere | src/hooks/useComments.ts:85-89 | the delete updater's result keeps the key set and never lengthens a list |
| CommentCache.LikedEverywhere | src/hooks/useComments.ts:104-109 | the like updater's result keeps the key set and every list's length |
| CommentCache.DeletedEverywhereSpec | src/hooks/useComments.ts:85-89 | the key set is kept; every list loses exactly the comments with the id and keeps all the others |
| CommentCache.LikedEverywhereSpec | src/hooks/useComments.ts:104-109 | the key set and every length are kept; every copy of the liked comment becomes the reply with its old count plus one |
| CommentCache.DeleteFromAggregate | src/hooks/useComments.ts:83-90 | the loop over the keys leaves an absent aggregate absent and otherwise yields the comprehension with the id filtered out of every list |
| CommentCache.LikeInAggregate | src/hooks/useComments.ts:102-111 | the loop over the keys leaves an absent aggregate absent and otherwise yields the comprehension with every copy liked |
| CommentCache.WithList | src/hooks/useComments.ts:129-133 | one post's list is set and every other key is kept |
| CommentCache.DeleteIdempotent | src/hooks/useComments.ts:85-89 | deleting the same comment twice is deleting it once |
| UseComments.Hook.constructor | src/hooks/useComments.ts:33-37 | the aggregate entry starts absent |
| UseComments.Hook.Comments | src/hooks/useComments.ts:33-37 | the aggregate entry, or `{}` while there is none |
| UseComments.Hook.AddComment | src/hooks/useComments.ts:40-57 | sends only when the draft's `postId` is truthy; on success appends to the aggregate, closes the add dialog and resets the draft |
| UseComments.Hook.UpdateComment | src/hooks/useComments.ts:60-76 | sends only with a selected comment (its id and body); on success replaces by id in the aggregate and closes the edit dialog |
| UseComments.Hook.DeleteComment | src/hooks/useComments.ts:79-95 | on success the id leaves every aggregate list |
| UseComments.Hook.LikeComment | src/hooks/useComments.ts:98-116 | on success every cached copy becomes the reply with one more like |
| UseComments.Hook.FetchComments | src/hooks/useComments.ts:119-134 | no request on a per-post cache hit; on a miss the list is stored per post and under its id in the aggregate, other keys kept |
| CommentEntity.AppendToPostEntry | src/entities/comment/model/hooks.ts:33-36 | the reply goes last in its post's cached list; an absent list stays absent; other entries are unchanged |
| CommentEntity.ReplaceInPostEntry | src/entities/comment/model/hooks.ts:59-62 | the reply replaces by id in its post's cached list, keeping its length; an absent list stays absent |
| CommentEntity.DeleteMarksEveryCommentEntry | src/entities/comment/model/hooks.ts:94 | invalidating `["comments"]` marks the aggregate entry and every per-post entry stale |
| CommentEntity.Hook.constructor | src/entities/comment/model/hooks.ts:22-26 | the aggregate entry starts absent and nothing is stale |
| CommentEntity.Hook.AddComment | src/entities/comment/model/hooks.ts:29-52 | guarded by a truthy `postId`; on success patches the per-post entry and the aggregate, closes the add dialog and resets the draft |
| CommentEntity.Hook.UpdateComment | src/entities/comment/model/hooks.ts:55-77 | guarded by a selected comment; on success replaces by id in both entries and closes the edit dialog |
| CommentEntity.Hook.DeleteComment | src/entities/comment/model/hooks.ts:80-99 | on success drops the id from every aggregate list, then marks every comment entry stale |
| CommentEntity.Hook.LikeComment | src/entities/comment/model/hooks.ts:102-119 | on success likes every aggregate copy; the per-post entries are not patched |
| CommentEntity.Hook.FetchComments | src/entities/comment/model/hooks.ts:122-134 | no request on a per-post hit; on a miss writes both the per-post entry and the aggregate |
| PostTable.ShownPosts | src/widgets/post-table/ui/PostTable.tsx:33 | the search results iff a search ran, is active and has results; otherwise the base posts |
| PostTable.ReactionCount | src/widgets/post-table/ui/PostTable.tsx:53-54 | a post without reactions counts 0; otherwise its likes plus its dislikes |
| PostTable.KeyOf | src/widgets/post-table/ui/PostTable.tsx:43-57 | `id`, the lower-cased title, likes + dislikes (a missing reaction counts 0), or no key for any other `sortBy` |
| PostTable.Compare | src/widgets/post-table/ui/PostTable.tsx:56-64 | the comparator answers -1, 0 or 1 |
| PostTable.CompareZeroIffSameKey | src/widgets/post-table/ui/PostTable.tsx:60-64 | the comparator answers 0 exactly for posts with the same key |
| PostTable.CompareAntisymmetric | src/widgets/post-table/ui/PostTable.tsx:60-64 | swapping the posts flips the comparator's answer |
| PostTable.LeTotal | src/widgets/post-table/ui/PostTable.tsx:60-64 | of two posts, one may precede the other |
| PostTable.LeTransitive | src/widgets/post-table/ui/PostTable.tsx:60-64 | may-precede is transitive |
| PostTable.LeIsTotalPreorder | src/widgets/post-table/ui/PostTable.tsx:39-65 | the comparator is a total preorder whose ties are exactly the posts with equal keys |
| PostTable.SortedPosts | src/widgets/post-table/ui/PostTable.tsx:36-66 | the shown list is a permutation of the input, and the input itself when `sortBy` is `""` or `"none"` |
| PostTable.SortedPostsSpec | src/widgets/post-table/ui/PostTable.tsx:36-66 | `""` or `"none"` returns the input; otherwise the result is a permutation of the input, sorted by the comparator, and posts with equal keys keep their order |
| PostTable.SortDirection | src/widgets/post-table/ui/PostTable.tsx:60-64 | `"asc"` gives non-decreasing keys; any other order, `""` included, gives non-increasing keys |
| PostTable.UnknownSortKeepsOrder | src/widgets/post-table/ui/PostTable.tsx:56-57 | an unknown `sortBy` leaves the input order unchanged |
| PostStore.MergePostForm | src/shared/stores/postStore.ts:66-69 | each field given in the patch is overwritten; the others are kept |
| PostStore.MergeFullPatch | src/shared/stores/postStore.ts:66-69 | a patch giving every field replaces the form |
| PostStore.SearchOutcome | src/shared/stores/postStore.ts:88-109 | a blank query clears the results and both flags; otherwise both flags are set, with the reply's posts (or `[]` when absent) on success and `[]` on failure |
| PostStore.SearchFlagsAgree | src/shared/stores/postStore.ts:88-114 | the two search flags always agree, and results are present exactly when the search is active |
| PostStore.Store.constructor | src/shared/stores/postStore.ts:50-59 | nothing selected, the initial form, filters `""`, `""`, `""`, `"asc"`, no results and both flags false |
| PostStore.Store.SetSelectedPost | src/shared/stores/postStore.ts:62 | only `selectedPost` changes |
| PostStore.Store.SetNewPost | src/shared/stores/postStore.ts:64 | only `newPost` changes |
| PostStore.Store.UpdateNewPost | src/shared/stores/postStore.ts:66-69 | `newPost` becomes the merge of the patch; nothing else changes |
| PostStore.Store.ResetNewPost | src/shared/stores/postStore.ts:71 | `newPost` returns to the initial form |
| PostStore.Store.SetSearchQuery | src/shared/stores/postStore.ts:74 | only the search query changes |
| PostStore.Store.SetSelectedTag | src/shared/stores/postStore.ts:75 | only the tag changes; the search state is untouched |
| PostStore.Store.SetSortBy | src/shared/stores/postStore.ts:76 | only `sortBy` changes |
| PostStore.Store.SetSortOrder | src/shared/stores/postStore.ts:77 | only `sortOrder` changes |
| PostStore.Store.ResetFilters | src/shared/stores/postStore.ts:79-85 | exactly the four filters return to their defaults |
| PostStore.Store.SearchPosts | src/shared/stores/postStore.ts:88-109 | a request is made iff the query is not blank; the search state becomes the search outcome |
| PostStore.Store.ClearSearch | src/shared/stores/postStore.ts:112-114 | the search state becomes the blank-query outcome; nothing else changes |
| SharedCommentStore.PostIdOf | src/hooks/useComments.ts:138 | a draft's `postId`; a function stored as the draft has none |
| SharedCommentStore.DraftOf | src/shared/stores/commentStore.ts:63 | spreading a stored draft copies its fields; spreading a function copies nothing |
| SharedCommentStore.AddRequestOf | src/hooks/useComments.ts:137-145 | a request is made iff the draft's `postId` is present and non-zero, and it carries the draft's body, post id and user id |
| SharedCommentStore.UpdaterBlocksAdd | src/hooks/useComments.ts:138 | a function stored as the draft never lets a comment be sent |
| SharedCommentStore.WithDraftField | src/shared/stores/commentStore.ts:61-64 | one draft field is set and the others are kept |
| SharedCommentStore.WithCommentField | src/shared/stores/commentStore.ts:54-57 | the named field of `Comment` (id, body, post id, user id, likes or author) gets the value and every other field is kept |
| SharedCommentStore.DeletedUnder | src/shared/stores/commentStore.ts:44-50 | only that post's list is filtered (a missing list becomes `[]`); every other post's list is unchanged |
| SharedCommentStore.AddThenDelete | src/shared/stores/commentStore.ts:36-50 | deleting a just-added comment restores its post's list, when no other comment there had its id |
| SharedCommentStore.Store.constructor | src/shared/stores/commentStore.ts:25-28 | no comments, nothing selected, an empty draft, the modal closed |
| SharedCommentStore.Store.SetComments | src/shared/stores/commentStore.ts:31-34 | one post's list is replaced; nothing else changes |
| SharedCommentStore.Store.AddComment | src/shared/stores/commentStore.ts:36-42 | the comment is appended under its post; nothing else changes |
| SharedCommentStore.Store.DeleteComment | src/shared/stores/commentStore.ts:44-50 | the id is filtered from that post's list only |
| SharedCommentStore.Store.SetSelectedComment | src/shared/stores/commentStore.ts:52 | only the selection changes |
| SharedCommentStore.Store.UpdateComment | src/shared/stores/commentStore.ts:54-57 | one field of the selected comment is set; no selection stays none |
| SharedCommentStore.Store.SetNewComment | src/shared/stores/commentStore.ts:59 | the draft becomes its argument verbatim, even a function |
| SharedCommentStore.Store.UpdateNewComment | src/shared/stores/commentStore.ts:61-64 | the draft gets one field set and keeps the others |
| SharedCommentStore.Store.ResetNewComment | src/shared/stores/commentStore.ts:66 | the draft becomes `{}` |
| SharedCommentStore.Store.SetShowCommentModal | src/shared/stores/commentStore.ts:68 | only the modal flag changes |
| CommentStore.MergeNewComment | src/stores/commentStore.ts:41-44 | each field given in the patch is overwritten; the others are kept |
| CommentStore.MergeEmptyPatch | src/stores/commentStore.ts:41-44 | an empty patch leaves the draft unchanged |
| CommentStore.Store.constructor | src/stores/commentStore.ts:24-34 | no selection and the draft `{body: "", postId: null, userId: 1}` |
| CommentStore.Store.SetSelectedComment | src/stores/commentStore.ts:37 | only the selection changes |
| CommentStore.Store.SetNewComment | src/stores/commentStore.ts:39 | only the draft changes |
| CommentStore.Store.UpdateNewComment | src/stores/commentStore.ts:41-44 | the draft becomes the merge of the patch |
| CommentStore.Store.ResetNewComment | src/stores/commentStore.ts:46 | the draft returns to its initial value, whatever it was |
| UiStore.AllClosed | src/stores/uiStore.ts:57-65 | all six dialog flags are false; the loading fields are kept |
| UiStore.AllClosedIdempotent | src/stores/uiStore.ts:57-65 | closing all modals twice is closing them once |
| UiStore.Store.constructor | src/stores/uiStore.ts:33-40 | all flags false and an empty loading message |
| UiStore.Store.SetShowAddPostDialog | src/stores/uiStore.ts:43 | only its own flag changes |
| UiStore.Store.SetShowEditPostDialog | src/stores/uiStore.ts:44 | only its own flag changes |
| UiStore.Store.SetShowPostDetailDialog | src/stores/uiStore.ts:45 | only its own flag changes |
| UiStore.Store.SetShowAddCommentDialog | src/stores/uiStore.ts:46 | only its own flag changes |
| UiStore.Store.SetShowEditCommentDialog | src/stores/uiStore.ts:47 | only its own flag changes |
| UiStore.Store.SetShowUserModal | src/stores/uiStore.ts:48 | only its own flag changes |
| UiStore.Store.SetLoading | src/stores/uiStore.ts:50-54 | both loading fields are set; an omitted message becomes `""` |
| UiStore.Store.CloseAllModals | src/stores/uiStore.ts:57-65 | the state becomes all-closed with the loading fields kept |
| UserStore.Store.constructor | src/stores/userStore.ts:17 | no user is selected |
| UserStore.Store.SetSelectedUser | src/stores/userStore.ts:20 | the selected user becomes the argument |
| UserStore.Store.ClearSelectedUser | src/stores/userStore.ts:21 | no user is selected, whatever was before |
| Utils.ValueText | src/shared/lib/utils.ts:35 | a string value is stored as itself; a number as its decimal text |
| Utils.SearchParams.constructor | src/pages/posts-manager/PostsManagerPage.tsx:24 | fresh params hold no keys |
| Utils.SearchParams.Get | src/hooks/usePagination.ts:31 | the stored value for a present key, none for an absent one |
| Utils.SearchParams.Set | src/shared/lib/utils.ts:35 | the key is set to the value, replacing any previous value |
| Utils.GetOr | src/hooks/usePagination.ts:31-32 | the stored value, unless it is missing or empty; then the default |
| Utils.WithParam | src/shared/lib/utils.ts:33-37 | a truthy value sets the key to its text, replacing any previous one; a falsy value changes nothing; other keys are unchanged |
| Utils.UpdateURLParam | src/shared/lib/utils.ts:33-37 | the params become the `WithParam` result |
| Utils.WithParamIdempotent | src/shared/lib/utils.ts:33-37 | setting the same parameter twice equals setting it once |
| Utils.SliceTo | src/shared/lib/utils.ts:70 | `slice(0, end)` is a prefix of length `end` within bounds, or of length `|text| + end` for a negative end |
| Utils.TruncateText | src/shared/lib/utils.ts:68-71 | text that fits is returned unchanged; otherwise the first `maxLength` characters followed by `"..."`, of length `maxLength + 3` (a negative `maxLength` counts from the end) |
| Utils.TruncateIdempotent | src/shared/lib/utils.ts:68-71 | truncating twice equals truncating once, for a non-negative length |
| Pagination.ParseSkip | src/hooks/usePagination.ts:17 | a missing `skip` reads as 0 |
| Pagination.ParseLimit | src/hooks/usePagination.ts:18 | a missing `limit` reads as 10 |
| Pagination.SkipAsWritten | src/hooks/usePagination.ts:17 | the parse equals `parseInt` of the `skip` parameter, or of `"0"` when it is missing or empty |
| Pagination.LimitAsWritten | src/hooks/usePagination.ts:18 | the parse equals `parseInt` of the `limit` parameter, or of `"10"` when it is missing or empty |
| Pagination.PaginationQuery | src/hooks/usePagination.ts:21-26 | fresh params holding `skip` iff it is truthy and `limit` iff it is truthy, each as its decimal text, and nothing else |
| Pagination.SkipRoundTrip | src/hooks/usePagination.ts:23-31 | every integer `skip` round-trips; 0 is omitted and reads back as 0 |
| Pagination.LimitRoundTrip | src/hooks/usePagination.ts:24-32 | every non-zero `limit` round-trips; 0 is omitted and reads back as 10 |
| Pagination.ParseState | src/hooks/usePagination.ts:17-18 | a missing or empty `skip` reads as 0 and `limit` as 10; a present value is read with `parseInt` |
| Pagination.Pagination.constructor | src/hooks/usePagination.ts:17-18 | the state starts as the URL's parse |
| Pagination.Pagination.SetSkip | src/hooks/usePagination.ts:17 | only `skip` changes |
| Pagination.Pagination.SetLimit | src/hooks/usePagination.ts:18 | only `limit` changes |
| Pagination.Pagination.SyncFromURL | src/hooks/usePagination.ts:29-33 | the state becomes the URL's parse |
| Pagination.Pagination.UpdateURL | src/hooks/usePagination.ts:21-26 | the written query is the pagination query of the current state |
| FilterUrl.FilterQuery | src/pages/posts-manager/PostsManagerPage.tsx:23-30 | only the four filter keys, each present iff its filter is non-empty, holding that filter |
| FilterUrl.ParseFilters | src/pages/posts-manager/PostsManagerPage.tsx:33-39 | missing filters default to `""`, and `sortOrder` to `"asc"`; the parsed `sortOrder` is never empty |
| FilterUrl.ParseSerialize | src/pages/posts-manager/PostsManagerPage.tsx:23-39 | parse after serialise gives back the filters when `sortOrder` is non-empty; an empty `sortOrder` comes back as `"asc"` |
| FilterUrl.SerializeFixedPoint | src/pages/posts-manager/PostsManagerPage.tsx:23-44 | after one round the loop is at a fixed point; serialising the parse gives the same query exactly when `sortOrder` is non-empty |
| FilterUrl.UpdateURL | src/pages/posts-manager/PostsManagerPage.tsx:23-30 | the written query is the filter query of the store's filters |
| FilterUrl.SyncFromURL | src/pages/posts-manager/PostsManagerPage.tsx:33-39 | the store's filters become the URL's parse and nothing else in the store changes |
| LegacyPage.FilterState.constructor | src/pages/PostsManagerPage.tsx:59-64 | the filters start as the URL's parse with defaults `""`, `""`, `""`, `"asc"` |
| LegacyPage.FilterState.SetSearchQuery | src/hooks/useSearchAndFilter.tsx:24 | only the search query changes |
| LegacyPage.FilterState.SetSelectedTag | src/hooks/useSearchAndFilter.tsx:25 | only the tag changes |
| LegacyPage.FilterState.SetSortBy | src/hooks/useSearchAndFilter.tsx:26 | only `sortBy` changes |
| LegacyPage.FilterState.SetSortOrder | src/hooks/useSearchAndFilter.tsx:27 | only `sortOrder` changes |
| LegacyPage.FilterState.SyncFromURL | src/pages/PostsManagerPage.tsx:106-112 | the four filters are set from the URL with the same defaults |
| LegacyPage.TagClick | src/pages/PostsManagerPage.tsx:149-153 | selects the tag, fetches by it (`""` and `"all"` fetch the page), then writes the pagination query |
| LegacyPage.TagClickURLDropsFilters | src/pages/PostsManagerPage.tsx:149-153 | the URL a tag click writes reads back as the default filters, without the tag |
| LegacyPage.AddCommentClickAsWritten | src/pages/PostsManagerPage.tsx:208-211 | the draft becomes the updater function itself and the add dialog opens |
| LegacyPage.AsWrittenDraftCannotBeSent | src/pages/PostsManagerPage.tsx:209 | after the click as written no comment can be sent, while the intended draft could be |
| LegacyPage.BodyChange | src/pages/PostsManagerPage.tsx:318 | the draft becomes the spread of the old draft with the typed body, stored as fields |
| LegacyPage.TypedDraft | src/pages/PostsManagerPage.tsx:318 | after typing, the draft is an object whose body is the last text typed |
| LegacyPage.TypedDraftKeepsPostId | src/pages/PostsManagerPage.tsx:318 | typing a body never changes the draft's `postId`, a missing one included |
| LegacyPage.AsWrittenTypedDraftCannotBeSent | src/pages/PostsManagerPage.tsx:318 | after the button as written, no amount of typing gives the draft a `postId`, so nothing is sent |
| LegacyPage.IntendedTypedDraftCanBeSent | src/pages/PostsManagerPage.tsx:318 | after the corrected button, typing a body keeps the post id and the draft can be sent |
| LegacyPage.AddCommentClick | src/pages/PostsManagerPage.tsx:208-211 | the draft gets the post id and keeps its other fields; the add dialog opens |
| LegacyPage.IntendedDraftCanBeSent | src/pages/PostsManagerPage.tsx:209 | after the corrected click the add request carries the draft's body, the post id and the user id |
| UseUsers.AfterOpen | src/hooks/useUsers.ts:85-103 | a hit selects the cached user and shows the modal; a miss with a reply caches and selects it and shows the modal; a failed miss changes nothing |
| UseUsers.OpenKeepsCurrentCached | src/hooks/useUsers.ts:85-103 | if the current user is a cached one before an open, it still is after |
| UseUsers.OpenTwice | src/hooks/useUsers.ts:87-99 | once an open has cached the user, opening it again changes nothing |
| UseUsers.Hook.constructor | src/hooks/useUsers.ts:75 | the modal starts hidden and the exposed user is null |
| UseUsers.Hook.OpenUserModal | src/hooks/useUsers.ts:85-103 | a missing author (`undefined`, whose `.id` throws) makes no request and changes nothing; otherwise a request is made iff the id is not cached, and the state becomes the open outcome |
| UseUsers.Hook.SelectedUser | src/hooks/useUsers.ts:106 | the exposed `selectedUser` is the hook's current user, null when there is none |
| UseUsers.Hook.SetShowUserModal | src/hooks/useUsers.ts:75 | only the modal flag changes |
| UserEntity.ShownUser | src/entities/user/model/hooks.ts:47 | the query data for the selected user's id when cached, otherwise the store's selection |
| UserEntity.OpenShowsSelected | src/entities/user/model/hooks.ts:26-47 | with users cached under their own ids, an open that succeeds shows the opened user and keeps the cache keyed by id |
| UserEntity.Hook.constructor | src/entities/user/model/hooks.ts:17-23 | the hook holds the given cache and stores |
| UserEntity.Hook.SelectedUser | src/entities/user/model/hooks.ts:47 | the cached user under the store's selected id when there is one; otherwise the store's selection |
| UserEntity.Hook.OpenUserModal | src/entities/user/model/hooks.ts:26-44 | a missing author makes no request and changes nothing; otherwise a request is made iff the id is not cached; the cache, the store's selection and the modal flag follow the open outcome; the other UI flags are unchanged |

## Left out

- Network and I/O. `fetch`, the axios client, JSON decoding and `Promise.all` are outside the model. Each reply is a parameter. The comment, user and tag endpoints are not modelled beyond their replies.
- React Query scheduling. Request de-duplication, refetch timing, `enabled` flags and loading flags (`isLoading`) are not modelled. Invalidation is modelled only as marking keys stale. A refetch is modelled as the request it issues.
- Rendering. JSX, the dialog components, the table markup and `highlightText` (regex built from user input, returns JSX) are not part of this model.
- `formatNumber`, `formatDate`: locale-dependent formatting, not modelled.
- Tag fetching (`fetchTags`) in `useSearchAndFilter` and its controls: a plain fetch into state, not modelled.
- Asynchronous interleavings. Concurrent mutations, the order in which replies arrive and the timing of the URL↔state effects are not modelled. Each operation runs to completion with its replies given.
- Text. `toLowerCase` is modelled on ASCII only, and strings are sequences of characters, not UTF-16 code units.
- URL encoding. Percent-encoding and the order of parameters in the query string are not modelled; a query is a map from key to value.
- Record fields. Records keep only the fields the logic reads: posts have no `views`, and users have no extended profile.
- Store fields. Store and hook fields that the modelled actions never touch (the `tags` list, the other setters of `usePosts`) are not modelled.
- Text.IntToText: model numbers are unbounded integers. JavaScript numbers are doubles, so `toString` prints plain digits only for magnitudes below 10^21 (it switches to `1e+21` form above), and integers are exact only below 2^53.
- Text.ParseIntToText: holds in JavaScript only for integers below 2^53 in magnitude, for the reason above; a digit run too long for a double reads as `Infinity`, which the model does not have.
- Pagination.SkipRoundTrip: holds in JavaScript only for `skip` below 2^53 in magnitude, for the reason above.
- Pagination.LimitRoundTrip: holds in JavaScript only for `limit` below 2^53 in magnitude, for the reason above.
- SharedCommentStore.WithCommentField: `updateComment(field, value)` accepts any key and any value. The model writes only the six fields of `Comment`, each with a value of its own type; a key outside them, or a value of another type, is not modelled.
- PostTable.ReactionCount: a `reactions` object missing just one of `likes` and `dislikes` is not modelled; a post has either no reactions or both counts.
- PostEntity.Hook: the cached search reply's `posts` and `total` are kept as received, and a missing `posts` field shows the base page; the other fields of the search reply are not modelled.
- UsePosts.Hook: the `loading` flag is set at the start and cleared at the end of each handler, but only its final value is stated. The `posts` list being undefined (after a search reply without `posts`) is modelled; a thrown TypeError leaves the state as it was.

## Findings

| source | as written | input that shows it | evidently intended | confidence | as-written member | corrected member |
|---|---|---|---|---|---|---|
| src/pages/PostsManagerPage.tsx:209 | `setNewComment((prev) => ({ ...prev, postId }))` hands an updater function to the comment store's `setNewComment`, which stores its argument verbatim (src/shared/stores/commentStore.ts:59). The draft becomes a function with no `postId`, so the `if (newComment.postId)` guard of `addComment` never sends the comment | any draft, then the add-comment button of post 5, then `addComment` | the draft keeps its fields and gets `postId` 5, so `addComment` sends `{body, postId: 5, userId}` | high (not executed) | LegacyPage.AsWrittenDraftCannotBeSent | LegacyPage.IntendedDraftCanBeSent |
| src/pages/PostsManagerPage.tsx:318 | after the button above, typing a body runs `setNewComment({ ...newComment, body })`; spreading the stored function copies nothing, so the draft becomes `{body}`, still without `postId` | the add-comment button of post 5, then typing `hi` | the draft `{body: "hi", postId: 5, ...}` that `addComment` sends | high (not executed) | LegacyPage.AsWrittenTypedDraftCannotBeSent | LegacyPage.IntendedTypedDraftCanBeSent |
