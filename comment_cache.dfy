/**
 * The comment caches the comment hooks patch after a mutation: the
 * aggregate `{postId: Comment[]}` entry under `["comments"]` and the
 * per-post lists under `["comments", postId]`.
 */
module CommentCache {
  import opened Wrappers
  import opened Entities
  import Lists

  /** A `{postId: Comment[]}` object. */
  type CommentsByPost = map<int, seq<Comment>>

  /** `m[postId] || []`: a list is truthy even when empty, so only a missing one defaults. */
  function ListOf(m: CommentsByPost, postId: int): seq<Comment> {
    if postId in m then m[postId] else []
  }

  /** `comments.map(c => c.id === data.id ? data : c)` */
  function ReplaceComment(comments: seq<Comment>, data: Comment): (r: seq<Comment>)
    ensures |r| == |comments|
    ensures forall i :: 0 <= i < |comments| && comments[i].id == data.id ==> r[i] == data
    ensures forall i :: 0 <= i < |comments| && comments[i].id != data.id ==> r[i] == comments[i]
  {
    Lists.Map(comments, (c: Comment) => if c.id == data.id then data else c)
  }

  /** `comments.filter(c => c.id !== id)` */
  function WithoutComment(comments: seq<Comment>, id: int): (r: seq<Comment>)
    ensures |r| <= |comments|
  {
    Lists.Filter(comments, (c: Comment) => c.id != id)
  }

  /**
   * The filtered list holds no comment with the id and every other comment
   * of the list, and nothing else; it is as long as the list iff the id was
   * on no comment.
   */
  lemma WithoutCommentSpec(comments: seq<Comment>, id: int)
    ensures forall i :: 0 <= i < |WithoutComment(comments, id)| ==>
      WithoutComment(comments, id)[i].id != id && WithoutComment(comments, id)[i] in comments
    ensures forall i :: 0 <= i < |comments| && comments[i].id != id ==> comments[i] in WithoutComment(comments, id)
    ensures multiset(WithoutComment(comments, id)) <= multiset(comments)
    ensures |WithoutComment(comments, id)| == |comments| <==> forall i :: 0 <= i < |comments| ==> comments[i].id != id
  {
    Lists.FilterSpec(comments, (c: Comment) => c.id != id);
  }

  /** `comments.map(c => c.id === data.id ? {...data, likes: c.likes + 1} : c)` */
  function LikedIn(comments: seq<Comment>, data: Comment): (r: seq<Comment>)
    ensures |r| == |comments|
    ensures forall i :: 0 <= i < |comments| && comments[i].id == data.id ==> r[i] == data.(likes := comments[i].likes + 1)
    ensures forall i :: 0 <= i < |comments| && comments[i].id != data.id ==> r[i] == comments[i]
  {
    Lists.Map(comments, (c: Comment) => if c.id == data.id then data.(likes := c.likes + 1) else c)
  }

  /**
   * Two likes answered with replies for the same comment: each matching
   * comment ends as the second reply with two more likes than it had
   * cached, whatever like counts the replies themselves carry.
   */
  lemma LikeTwice(comments: seq<Comment>, first: Comment, second: Comment)
    requires first.id == second.id
    ensures |LikedIn(LikedIn(comments, first), second)| == |comments|
    ensures forall i :: 0 <= i < |comments| && comments[i].id == first.id ==>
      LikedIn(LikedIn(comments, first), second)[i] == second.(likes := comments[i].likes + 2)
    ensures forall i :: 0 <= i < |comments| && comments[i].id != first.id ==>
      LikedIn(LikedIn(comments, first), second)[i] == comments[i]
  {
    var once := LikedIn(comments, first);
    forall i | 0 <= i < |comments| && comments[i].id == first.id
      ensures LikedIn(once, second)[i] == second.(likes := comments[i].likes + 2)
    {
      assert once[i] == first.(likes := comments[i].likes + 1);
    }
  }

  /** `{...m, [postId]: [...(m[postId] || []), comment]}` */
  function AppendUnder(m: CommentsByPost, postId: int, comment: Comment): (r: CommentsByPost)
    ensures r.Keys == m.Keys + {postId}
    ensures r[postId] == ListOf(m, postId) + [comment]
    ensures forall k :: k in m && k != postId ==> r[k] == m[k]
  {
    m[postId := ListOf(m, postId) + [comment]]
  }

  /** The add updater on the aggregate entry; an absent entry stays absent. */
  function AddToAggregate(aggregate: Option<CommentsByPost>, data: Comment): (r: Option<CommentsByPost>)
    ensures aggregate.None? <==> r.None?
    ensures aggregate.Some? ==> r.value.Keys == aggregate.value.Keys + {data.postId}
    ensures aggregate.Some? ==> r.value[data.postId] == ListOf(aggregate.value, data.postId) + [data]
    ensures aggregate.Some? ==> forall k :: k in aggregate.value && k != data.postId ==> r.value[k] == aggregate.value[k]
  {
    if aggregate.None? then aggregate else Some(AppendUnder(aggregate.value, data.postId, data))
  }

  /**
   * The update updater on the aggregate entry: the list under `data.postId`
   * has the matching comments replaced; a missing list becomes `[]`.
   */
  function UpdateInAggregate(aggregate: Option<CommentsByPost>, data: Comment): (r: Option<CommentsByPost>)
    ensures aggregate.None? <==> r.None?
    ensures aggregate.Some? ==> r.value.Keys == aggregate.value.Keys + {data.postId}
    ensures aggregate.Some? ==> r.value[data.postId] == ReplaceComment(ListOf(aggregate.value, data.postId), data)
    ensures aggregate.Some? ==> |r.value[data.postId]| == |ListOf(aggregate.value, data.postId)|
    ensures aggregate.Some? ==> forall k :: k in aggregate.value && k != data.postId ==> r.value[k] == aggregate.value[k]
  {
    if aggregate.None? then aggregate
    else
      var m := aggregate.value;
      Some(m[data.postId := if data.postId in m then ReplaceComment(m[data.postId], data) else []])
  }

  /** Every list with the deleted comment filtered out. */
  function DeletedEverywhere(m: CommentsByPost, id: int): (r: CommentsByPost)
    ensures r.Keys == m.Keys
    ensures forall k :: k in m ==> |r[k]| <= |m[k]|
  {
    map k | k in m :: WithoutComment(m[k], id)
  }

  /** Every list with each copy of the liked comment replaced by the reply, one like up. */
  function LikedEverywhere(m: CommentsByPost, data: Comment): (r: CommentsByPost)
    ensures r.Keys == m.Keys
    ensures forall k :: k in m ==> |r[k]| == |m[k]|
  {
    map k | k in m :: LikedIn(m[k], data)
  }

  /**
   * After a delete the key set is the same, no list holds the deleted id, and
   * every other comment is still in its list.
   */
  lemma DeletedEverywhereSpec(m: CommentsByPost, id: int)
    ensures DeletedEverywhere(m, id).Keys == m.Keys
    ensures forall k, i :: k in m && 0 <= i < |DeletedEverywhere(m, id)[k]| ==> DeletedEverywhere(m, id)[k][i].id != id
    ensures forall k, i :: k in m && 0 <= i < |m[k]| && m[k][i].id != id ==> m[k][i] in DeletedEverywhere(m, id)[k]
    ensures forall k :: k in m ==> multiset(DeletedEverywhere(m, id)[k]) <= multiset(m[k])
  {
    forall k | k in m
      ensures forall i :: 0 <= i < |DeletedEverywhere(m, id)[k]| ==> DeletedEverywhere(m, id)[k][i].id != id
      ensures forall i :: 0 <= i < |m[k]| && m[k][i].id != id ==> m[k][i] in DeletedEverywhere(m, id)[k]
      ensures multiset(DeletedEverywhere(m, id)[k]) <= multiset(m[k])
    {
      WithoutCommentSpec(m[k], id);
    }
  }

  /**
   * After a like the key set and every list length are the same; each copy
   * of the liked comment becomes the reply with the cached likes plus one.
   */
  lemma LikedEverywhereSpec(m: CommentsByPost, data: Comment)
    ensures LikedEverywhere(m, data).Keys == m.Keys
    ensures forall k :: k in m ==> |LikedEverywhere(m, data)[k]| == |m[k]|
    ensures forall k, i :: k in m && 0 <= i < |m[k]| && m[k][i].id == data.id ==>
      LikedEverywhere(m, data)[k][i] == data.(likes := m[k][i].likes + 1)
    ensures forall k, i :: k in m && 0 <= i < |m[k]| && m[k][i].id != data.id ==>
      LikedEverywhere(m, data)[k][i] == m[k][i]
  {
  }

  /** Some key of a non-empty key set; which one does not matter to the callers. */
  method Pick(keys: set<int>) returns (k: int)
    requires keys != {}
    ensures k in keys
  {
    if forall x :: x !in keys {
      assert false;
    }
    k :| k in keys;
  }

  /**
   * The delete updater: copies the object, then reassigns each of its keys
   * to the filtered list, one key at a time. An absent entry stays absent.
   */
  method DeleteFromAggregate(aggregate: Option<CommentsByPost>, id: int) returns (r: Option<CommentsByPost>)
    ensures aggregate.None? ==> r.None?
    ensures aggregate.Some? ==> r == Some(DeletedEverywhere(aggregate.value, id))
  {
    if aggregate.None? {
      return aggregate;
    }
    var oldData := aggregate.value;
    var newData := oldData;
    var pending := newData.Keys;
    while pending != {}
      invariant pending <= oldData.Keys
      invariant newData.Keys == oldData.Keys
      invariant forall k :: k in pending ==> newData[k] == oldData[k]
      invariant forall k :: k in oldData && k !in pending ==> newData[k] == WithoutComment(oldData[k], id)
      decreases pending
    {
      var postId := Pick(pending);
      newData := newData[postId := WithoutComment(newData[postId], id)];
      pending := pending - {postId};
    }
    ghost var spec := DeletedEverywhere(oldData, id);
    assert forall k :: k in newData <==> k in spec;
    assert forall k :: k in newData ==> newData[k] == spec[k];
    assert newData == spec;
    return Some(newData);
  }

  /**
   * The like updater: copies the object, then reassigns each of its keys to
   * the list with the liked comment replaced. An absent entry stays absent.
   */
  method LikeInAggregate(aggregate: Option<CommentsByPost>, data: Comment) returns (r: Option<CommentsByPost>)
    ensures aggregate.None? ==> r.None?
    ensures aggregate.Some? ==> r == Some(LikedEverywhere(aggregate.value, data))
  {
    if aggregate.None? {
      return aggregate;
    }
    var oldData := aggregate.value;
    var newData := oldData;
    var pending := newData.Keys;
    while pending != {}
      invariant pending <= oldData.Keys
      invariant newData.Keys == oldData.Keys
      invariant forall k :: k in pending ==> newData[k] == oldData[k]
      invariant forall k :: k in oldData && k !in pending ==> newData[k] == LikedIn(oldData[k], data)
      decreases pending
    {
      var postId := Pick(pending);
      newData := newData[postId := LikedIn(newData[postId], data)];
      pending := pending - {postId};
    }
    ghost var spec := LikedEverywhere(oldData, data);
    assert forall k :: k in newData <==> k in spec;
    assert forall k :: k in newData ==> newData[k] == spec[k];
    assert newData == spec;
    return Some(newData);
  }

  /** `{...current, [postId]: comments}`: one list set, every other key kept. */
  function WithList(m: CommentsByPost, postId: int, comments: seq<Comment>): (r: CommentsByPost)
    ensures r.Keys == m.Keys + {postId}
    ensures r[postId] == comments
    ensures forall k :: k in m && k != postId ==> r[k] == m[k]
  {
    m[postId := comments]
  }

  /** Deleting the same comment twice is deleting it once. */
  lemma {:induction false} DeleteIdempotent(m: CommentsByPost, id: int)
    ensures DeletedEverywhere(DeletedEverywhere(m, id), id) == DeletedEverywhere(m, id)
  {
    var once := DeletedEverywhere(m, id);
    forall k | k in once
      ensures WithoutComment(once[k], id) == once[k]
    {
      WithoutCommentSpec(m[k], id);
      Lists.FilterKeepsAll(once[k], (c: Comment) => c.id != id);
    }
  }
}
