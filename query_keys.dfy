/**
 * Query-cache keys. The query library keys every cache entry by an array
 * compared structurally, and `invalidateQueries({queryKey})` marks stale every
 * entry whose key starts with the given array.
 */
module QueryKeys {
  import opened Wrappers

  datatype KeyPart = Str(s: string) | Num(n: int) | Undefined

  type QueryKey = seq<KeyPart>

  /** `["posts", skip, limit, selectedTag, sortOrder]` (the sort order may be undefined). */
  function PostsKey(skip: int, limit: int, tag: string, sortOrder: Option<string>): QueryKey {
    [Str("posts"), Num(skip), Num(limit), Str(tag), if sortOrder.Some? then Str(sortOrder.value) else Undefined]
  }

  /** `["posts", "search", searchQuery]` */
  function SearchKey(query: string): QueryKey {
    [Str("posts"), Str("search"), Str(query)]
  }

  /** `["comments"]`: the aggregate `{postId: Comment[]}` entry. */
  function CommentsKey(): QueryKey {
    [Str("comments")]
  }

  /** `["comments", postId]`: one post's comment list. */
  function PostCommentsKey(postId: int): QueryKey {
    [Str("comments"), Num(postId)]
  }

  predicate IsPrefix(prefix: QueryKey, key: QueryKey) {
    |prefix| <= |key| && key[..|prefix|] == prefix
  }

  /** `invalidateQueries({queryKey: prefix})` over the keys present in the cache. */
  function Invalidate(stale: set<QueryKey>, present: set<QueryKey>, prefix: QueryKey): (r: set<QueryKey>)
    ensures stale <= r
    ensures forall k :: k in present && IsPrefix(prefix, k) ==> k in r
    ensures forall k :: k in r ==> k in stale || (k in present && IsPrefix(prefix, k))
  {
    stale + (set k | k in present && IsPrefix(prefix, k))
  }

  /** `getQueryData(key)`: the cached data, or undefined. */
  function GetQueryData<K, V>(cache: map<K, V>, key: K): (r: Option<V>)
    ensures r.Some? <==> key in cache
    ensures r.Some? ==> r.value == cache[key]
  {
    if key in cache then Some(cache[key]) else None
  }

  /** `["posts", skip, limit, tag]`: the prefix the by-tag refresh invalidates. */
  function TagPrefix(skip: int, limit: int, tag: string): QueryKey {
    [Str("posts"), Num(skip), Num(limit), Str(tag)]
  }

  /**
   * `setQueryData(key, updater)` with an updater that returns its argument
   * unchanged when it is falsy: an absent entry stays absent, a present one is
   * replaced by the updater's result, and no other entry changes.
   */
  function SetQueryData<K, V>(cache: map<K, V>, key: K, update: V -> V): (r: map<K, V>)
    ensures r.Keys == cache.Keys
    ensures key in cache ==> r[key] == update(cache[key])
    ensures forall k :: k in cache && k != key ==> r[k] == cache[k]
  {
    if key in cache then cache[key := update(cache[key])] else cache
  }

  /**
   * The by-tag invalidation `["posts", skip, limit, tag]` reaches the page
   * entries of that skip, limit and tag under every sort order, and no other
   * page entry and no search entry.
   */
  lemma TagPrefixReach(skip: int, limit: int, tag: string, skip': int, limit': int, tag': string,
                       order: Option<string>, query: string)
    ensures IsPrefix(TagPrefix(skip, limit, tag), PostsKey(skip', limit', tag', order))
        <==> skip == skip' && limit == limit' && tag == tag'
    ensures !IsPrefix(TagPrefix(skip, limit, tag), SearchKey(query))
  {
    var p := TagPrefix(skip, limit, tag);
    var k := PostsKey(skip', limit', tag', order);
    if IsPrefix(p, k) {
      assert k[1] == p[1] && k[2] == p[2] && k[3] == p[3];
    }
  }

  /** The `["comments"]` prefix reaches the aggregate entry and every per-post entry. */
  lemma CommentsPrefixReach(postId: int)
    ensures IsPrefix(CommentsKey(), CommentsKey())
    ensures IsPrefix(CommentsKey(), PostCommentsKey(postId))
  {
    assert PostCommentsKey(postId)[..1] == CommentsKey();
  }
}
