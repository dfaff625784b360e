/**
 * The post table widget's view derivation
 * (`src/widgets/post-table/ui/PostTable.tsx`): which list is shown, and the
 * client-side sort of a copy of it by id, lower-cased title or reaction
 * count, ascending or descending. `Array.prototype.sort` is stable (section
 * 23.1.3.30 of ECMAScript 2023), so the sort is modelled as a stable
 * insertion sort driven by the same comparator.
 */
module PostTable {
  import opened Wrappers
  import opened Entities
  import Text
  import Sorting

  /**
   * `posts`: the store's search results when a search has run, is active
   * and has results (an empty list counts), else the entity hook's posts.
   */
  function ShownPosts(hasSearched: bool, isSearchActive: bool, searchResults: Option<seq<Post>>, original: seq<Post>): (r: seq<Post>)
    ensures hasSearched && isSearchActive && searchResults.Some? ==> r == searchResults.value
    ensures !(hasSearched && isSearchActive && searchResults.Some?) ==> r == original
  {
    if hasSearched && isSearchActive && searchResults.Some? then searchResults.value else original
  }

  /** The value the comparator reads off a post; `NoKey` for a `sortBy` it does not know. */
  datatype SortKey = Number(n: int) | Words(s: string) | NoKey

  /** `(reactions?.likes || 0) + (reactions?.dislikes || 0)` */
  function ReactionCount(p: Post): (r: int)
    ensures p.reactions.None? ==> r == 0
    ensures p.reactions.Some? ==> r == p.reactions.value.likes + p.reactions.value.dislikes
  {
    if p.reactions.Some? then p.reactions.value.likes + p.reactions.value.dislikes else 0
  }

  function KeyOf(sortBy: string, p: Post): (r: SortKey)
    ensures sortBy == "id" ==> r == Number(p.id)
    ensures sortBy == "title" ==> r == Words(Text.Lower(p.title))
    ensures sortBy == "reactions" ==> r == Number(ReactionCount(p))
    ensures sortBy != "id" && sortBy != "title" && sortBy != "reactions" ==> r == NoKey
  {
    match sortBy
    case "id" => Number(p.id)
    case "title" => Words(Text.Lower(p.title))
    case "reactions" => Number(ReactionCount(p))
    case _ => NoKey
  }

  /** JavaScript's `<` on two keys of the same kind: numeric, or code-unit order on strings. */
  predicate KeyLess(a: SortKey, b: SortKey) {
    match (a, b)
    case (Number(x), Number(y)) => x < y
    case (Words(x), Words(y)) => Text.LexLess(x, y)
    case _ => false
  }

  /** The comparator passed to `sort`. */
  function Compare(sortBy: string, sortOrder: string, a: Post, b: Post): (r: int)
    ensures -1 <= r <= 1
  {
    var ka := KeyOf(sortBy, a);
    var kb := KeyOf(sortBy, b);
    if ka.NoKey? || kb.NoKey? then 0
    else if sortOrder == "asc" then (if KeyLess(ka, kb) then -1 else if KeyLess(kb, ka) then 1 else 0)
    else (if KeyLess(kb, ka) then -1 else if KeyLess(ka, kb) then 1 else 0)
  }

  /** `a` may stay before `b`. */
  predicate Le(sortBy: string, sortOrder: string, a: Post, b: Post) {
    Compare(sortBy, sortOrder, a, b) <= 0
  }

  /** The comparator answers 0 exactly for posts with the same key. */
  lemma CompareZeroIffSameKey(sortBy: string, sortOrder: string, a: Post, b: Post)
    ensures Compare(sortBy, sortOrder, a, b) == 0 <==> KeyOf(sortBy, a) == KeyOf(sortBy, b)
  {
    var ka, kb := KeyOf(sortBy, a), KeyOf(sortBy, b);
    if ka.Words? {
      Text.LexTrichotomy(ka.s, kb.s);
      Text.LexIrreflexive(ka.s);
      if Text.LexLess(ka.s, kb.s) {
        Text.LexAsymmetric(ka.s, kb.s);
      }
    }
  }

  /** The comparator is antisymmetric in sign: swapping the posts flips the answer. */
  lemma CompareAntisymmetric(sortBy: string, sortOrder: string, a: Post, b: Post)
    ensures Compare(sortBy, sortOrder, a, b) == -Compare(sortBy, sortOrder, b, a)
  {
    var ka, kb := KeyOf(sortBy, a), KeyOf(sortBy, b);
    if ka.Words? && Text.LexLess(ka.s, kb.s) {
      Text.LexAsymmetric(ka.s, kb.s);
    }
  }

  lemma LeTotal(sortBy: string, sortOrder: string, a: Post, b: Post)
    ensures Le(sortBy, sortOrder, a, b) || Le(sortBy, sortOrder, b, a)
  {
    CompareAntisymmetric(sortBy, sortOrder, a, b);
  }

  lemma LeTransitive(sortBy: string, sortOrder: string, a: Post, b: Post, c: Post)
    requires Le(sortBy, sortOrder, a, b) && Le(sortBy, sortOrder, b, c)
    ensures Le(sortBy, sortOrder, a, c)
  {
    var ka, kb, kc := KeyOf(sortBy, a), KeyOf(sortBy, b), KeyOf(sortBy, c);
    if ka.Words? {
      var x, y, z := ka.s, kb.s, kc.s;
      Text.LexTrichotomy(x, y);
      Text.LexTrichotomy(y, z);
      Text.LexTrichotomy(x, z);
      if Text.LexLess(x, y) { Text.LexAsymmetric(x, y); }
      if Text.LexLess(y, z) { Text.LexAsymmetric(y, z); }
      if Text.LexLess(x, z) { Text.LexAsymmetric(x, z); }
      if Text.LexLess(z, y) && Text.LexLess(y, x) { Text.LexTransitive(z, y, x); }
      if Text.LexLess(x, y) && Text.LexLess(y, z) { Text.LexTransitive(x, y, z); }
      Text.LexIrreflexive(x);
      Text.LexIrreflexive(y);
    }
  }

  /** The comparator as the relation the sort is driven by. */
  function LeOf(sortBy: string, sortOrder: string): (Post, Post) -> bool {
    (a: Post, b: Post) => Le(sortBy, sortOrder, a, b)
  }

  function KeyFn(sortBy: string): Post -> SortKey {
    (p: Post) => KeyOf(sortBy, p)
  }

  /** The comparator is a total preorder whose ties are exactly the posts with equal keys. */
  lemma LeIsTotalPreorder(sortBy: string, sortOrder: string)
    ensures Sorting.Total(LeOf(sortBy, sortOrder))
    ensures Sorting.Transitive(LeOf(sortBy, sortOrder))
    ensures Sorting.SameKeyMayPrecede(LeOf(sortBy, sortOrder), KeyFn(sortBy))
  {
    var le := LeOf(sortBy, sortOrder);
    forall a, b
      ensures le(a, b) || le(b, a)
    {
      LeTotal(sortBy, sortOrder, a, b);
    }
    forall a, b, c | le(a, b) && le(b, c)
      ensures le(a, c)
    {
      LeTransitive(sortBy, sortOrder, a, b, c);
    }
    forall a, b | KeyFn(sortBy)(a) == KeyFn(sortBy)(b)
      ensures le(a, b)
    {
      CompareZeroIffSameKey(sortBy, sortOrder, a, b);
    }
  }

  /** `sortedPosts`: no `sortBy` (or `"none"`) shows the list as it is; otherwise a sorted copy. */
  function SortedPosts(posts: seq<Post>, sortBy: string, sortOrder: string): (r: seq<Post>)
    ensures multiset(r) == multiset(posts)
    ensures sortBy == "" || sortBy == "none" ==> r == posts
  {
    if sortBy == "" || sortBy == "none" then posts
    else
      Sorting.SortPermutes(LeOf(sortBy, sortOrder), posts);
      Sorting.Sort(LeOf(sortBy, sortOrder), posts)
  }

  /**
   * The displayed order: a permutation of the shown posts; sorted by the
   * comparator; and stable, so posts with equal keys stay in their input
   * order. With no `sortBy` (or `"none"`) the posts are shown as they are.
   */
  lemma SortedPostsSpec(posts: seq<Post>, sortBy: string, sortOrder: string)
    ensures multiset(SortedPosts(posts, sortBy, sortOrder)) == multiset(posts)
    ensures sortBy == "" || sortBy == "none" ==> SortedPosts(posts, sortBy, sortOrder) == posts
    ensures sortBy != "" && sortBy != "none" ==> Sorting.Sorted(LeOf(sortBy, sortOrder), SortedPosts(posts, sortBy, sortOrder))
    ensures forall k :: Sorting.WithKey(KeyFn(sortBy), k, SortedPosts(posts, sortBy, sortOrder)) == Sorting.WithKey(KeyFn(sortBy), k, posts)
  {
    if sortBy != "" && sortBy != "none" {
      LeIsTotalPreorder(sortBy, sortOrder);
      Sorting.SortPermutes(LeOf(sortBy, sortOrder), posts);
      Sorting.SortSorted(LeOf(sortBy, sortOrder), posts);
      forall k
        ensures Sorting.WithKey(KeyFn(sortBy), k, SortedPosts(posts, sortBy, sortOrder)) == Sorting.WithKey(KeyFn(sortBy), k, posts)
      {
        Sorting.SortStable(LeOf(sortBy, sortOrder), KeyFn(sortBy), posts, k);
      }
    }
  }

  /** `"asc"` orders keys from small to large; every other order, `""` included, from large to small. */
  lemma SortDirection(posts: seq<Post>, sortBy: string, sortOrder: string)
    requires sortBy != "" && sortBy != "none"
    ensures sortOrder == "asc" ==> forall i, j :: 0 <= i < j < |posts| ==>
      !KeyLess(KeyOf(sortBy, SortedPosts(posts, sortBy, sortOrder)[j]), KeyOf(sortBy, SortedPosts(posts, sortBy, sortOrder)[i]))
    ensures sortOrder != "asc" ==> forall i, j :: 0 <= i < j < |posts| ==>
      !KeyLess(KeyOf(sortBy, SortedPosts(posts, sortBy, sortOrder)[i]), KeyOf(sortBy, SortedPosts(posts, sortBy, sortOrder)[j]))
  {
    var out := SortedPosts(posts, sortBy, sortOrder);
    SortedPostsSpec(posts, sortBy, sortOrder);
    forall i, j | 0 <= i < j < |posts|
      ensures sortOrder == "asc" ==> !KeyLess(KeyOf(sortBy, out[j]), KeyOf(sortBy, out[i]))
      ensures sortOrder != "asc" ==> !KeyLess(KeyOf(sortBy, out[i]), KeyOf(sortBy, out[j]))
    {
      assert LeOf(sortBy, sortOrder)(out[i], out[j]);
      var ka, kb := KeyOf(sortBy, out[i]), KeyOf(sortBy, out[j]);
      if ka.Words? && Text.LexLess(ka.s, kb.s) {
        Text.LexAsymmetric(ka.s, kb.s);
      }
      if ka.Words? && Text.LexLess(kb.s, ka.s) {
        Text.LexAsymmetric(kb.s, ka.s);
      }
    }
  }

  /** An unknown `sortBy` makes the comparator 0 everywhere, so the input order is kept. */
  lemma UnknownSortKeepsOrder(posts: seq<Post>, sortBy: string, sortOrder: string)
    requires sortBy != "id" && sortBy != "title" && sortBy != "reactions"
    ensures SortedPosts(posts, sortBy, sortOrder) == posts
  {
    if sortBy != "" && sortBy != "none" {
      Sorting.SortAllEqual(LeOf(sortBy, sortOrder), posts);
    }
  }
}
