/**
 * The comment entity hook (`src/entities/comment/model/hooks.ts`): the same
 * aggregate-entry patches as the comments hook, plus patches to the
 * per-post entries on add and update and a stale mark on every comment
 * entry after a delete.
 */
module CommentEntity {
  import opened Wrappers
  import opened Entities
  import opened QueryKeys
  import opened CommentCache
  import opened SharedCommentStore
  import PostsApi
  import UiStore

  /** The add updater on `["comments", data.postId]`: the reply goes last; an absent entry stays absent. */
  function AppendToPostEntry(perPost: map<int, seq<Comment>>, data: Comment): (r: map<int, seq<Comment>>)
    ensures r.Keys == perPost.Keys
    ensures data.postId in perPost ==> r[data.postId] == perPost[data.postId] + [data]
    ensures forall k :: k in perPost && k != data.postId ==> r[k] == perPost[k]
  {
    SetQueryData(perPost, data.postId, (comments: seq<Comment>) => comments + [data])
  }

  /** The update updater on `["comments", data.postId]`: replaces by id and keeps the length. */
  function ReplaceInPostEntry(perPost: map<int, seq<Comment>>, data: Comment): (r: map<int, seq<Comment>>)
    ensures r.Keys == perPost.Keys
    ensures data.postId in perPost ==> r[data.postId] == ReplaceComment(perPost[data.postId], data)
    ensures data.postId in perPost ==> |r[data.postId]| == |perPost[data.postId]|
    ensures forall k :: k in perPost && k != data.postId ==> r[k] == perPost[k]
  {
    SetQueryData(perPost, data.postId, (comments: seq<Comment>) => ReplaceComment(comments, data))
  }

  /** The comment entries in the cache: the aggregate one (registered by the hook's query) and each post's. */
  function CommentKeys(perPost: map<int, seq<Comment>>): set<QueryKey> {
    {CommentsKey()} + set postId | postId in perPost :: PostCommentsKey(postId)
  }

  /** Invalidating `["comments"]` marks the aggregate entry and every per-post entry stale. */
  lemma DeleteMarksEveryCommentEntry(stale: set<QueryKey>, perPost: map<int, seq<Comment>>)
    ensures CommentsKey() in Invalidate(stale, CommentKeys(perPost), CommentsKey())
    ensures forall postId :: postId in perPost ==> PostCommentsKey(postId) in Invalidate(stale, CommentKeys(perPost), CommentsKey())
  {
    forall postId | postId in perPost
      ensures PostCommentsKey(postId) in Invalidate(stale, CommentKeys(perPost), CommentsKey())
    {
      CommentsPrefixReach(postId);
      assert PostCommentsKey(postId) in CommentKeys(perPost);
    }
    CommentsPrefixReach(0);
  }

  class Hook {
    const store: SharedCommentStore.Store
    const ui: UiStore.Store
    /** The `["comments"]` entry; absent until the first `fetchComments`. */
    var aggregate: Option<CommentsByPost>
    /** The `["comments", postId]` entries. */
    var perPost: map<int, seq<Comment>>
    /** Comment entries marked stale. */
    var stale: set<QueryKey>

    constructor (store: SharedCommentStore.Store, ui: UiStore.Store, perPost: map<int, seq<Comment>>)
      ensures this.store == store && this.ui == ui
      ensures aggregate.None? && this.perPost == perPost && stale == {}
    {
      this.store, this.ui := store, ui;
      aggregate, this.perPost, stale := None, perPost, {};
    }

    /**
     * `addComment()`: sends the draft when its `postId` is truthy; on success
     * the reply is appended to its post's entry and to its post's aggregate
     * list, the add dialog closes and the draft resets.
     */
    method AddComment(reply: Result<Comment>) returns (sent: Option<AddRequest>)
      modifies this, store, ui
      ensures sent == AddRequestOf(old(store.newComment))
      ensures sent.Some? && reply.Success? ==> perPost == AppendToPostEntry(old(perPost), reply.value)
      ensures sent.Some? && reply.Success? ==> aggregate == AddToAggregate(old(aggregate), reply.value)
      ensures sent.Some? && reply.Success? ==> ui.View() == old(ui.View()).(showAddCommentDialog := false)
      ensures sent.Some? && reply.Success? ==> store.View() == old(store.View()).(newComment := Fields(EmptyDraft))
      ensures sent.None? || reply.Failure? ==> perPost == old(perPost) && aggregate == old(aggregate)
      ensures sent.None? || reply.Failure? ==> ui.View() == old(ui.View()) && store.View() == old(store.View())
      ensures stale == old(stale)
    {
      sent := AddRequestOf(store.newComment);
      if sent.Some? && reply.Success? {
        perPost := AppendToPostEntry(perPost, reply.value);
        aggregate := AddToAggregate(aggregate, reply.value);
        ui.SetShowAddCommentDialog(false);
        store.ResetNewComment();
      }
    }

    /**
     * `updateComment()`: sends the selected comment's id and text; on
     * success the reply replaces it in its post's entry and in its post's
     * aggregate list, and the edit dialog closes.
     */
    method UpdateComment(reply: Result<Comment>) returns (sent: Option<UpdateRequest>)
      modifies this, ui
      ensures old(store.selectedComment).None? ==> sent.None?
      ensures old(store.selectedComment).Some? ==>
        sent == Some(UpdateRequest(old(store.selectedComment).value.id, old(store.selectedComment).value.body))
      ensures sent.Some? && reply.Success? ==> perPost == ReplaceInPostEntry(old(perPost), reply.value)
      ensures sent.Some? && reply.Success? ==> aggregate == UpdateInAggregate(old(aggregate), reply.value)
      ensures sent.Some? && reply.Success? ==> ui.View() == old(ui.View()).(showEditCommentDialog := false)
      ensures sent.None? || reply.Failure? ==>
        perPost == old(perPost) && aggregate == old(aggregate) && ui.View() == old(ui.View())
      ensures stale == old(stale)
    {
      sent := None;
      if store.selectedComment.Some? {
        var c := store.selectedComment.value;
        sent := Some(UpdateRequest(c.id, c.body));
        if reply.Success? {
          perPost := ReplaceInPostEntry(perPost, reply.value);
          aggregate := UpdateInAggregate(aggregate, reply.value);
          ui.SetShowEditCommentDialog(false);
        }
      }
    }

    /**
     * `deleteComment(id)`: once the request completes, the id leaves every
     * aggregate list and every comment entry is marked stale; the per-post
     * lists themselves are not patched.
     */
    method DeleteComment(id: int, sent: PostsApi.Outcome)
      modifies this
      ensures sent.Pass? && old(aggregate).Some? ==> aggregate == Some(DeletedEverywhere(old(aggregate).value, id))
      ensures sent.Pass? ==> stale == Invalidate(old(stale), CommentKeys(old(perPost)), CommentsKey())
      ensures sent.Fail? || old(aggregate).None? ==> aggregate == old(aggregate)
      ensures sent.Fail? ==> stale == old(stale)
      ensures perPost == old(perPost)
    {
      if sent.Pass? {
        aggregate := DeleteFromAggregate(aggregate, id);
        stale := Invalidate(stale, CommentKeys(perPost), CommentsKey());
      }
    }

    /** `likeComment(id)`: on success the aggregate lists take the reply with one more like; the per-post entries are not patched. */
    method LikeComment(id: int, reply: Result<Comment>)
      modifies this
      ensures reply.Success? && old(aggregate).Some? ==> aggregate == Some(LikedEverywhere(old(aggregate).value, reply.value))
      ensures reply.Failure? || old(aggregate).None? ==> aggregate == old(aggregate)
      ensures perPost == old(perPost) && stale == old(stale)
    {
      if reply.Success? {
        aggregate := LikeInAggregate(aggregate, reply.value);
      }
    }

    /**
     * `fetchComments(postId)`: nothing when the post's entry is cached;
     * otherwise the fetched list is cached under the post and set under its
     * id in the aggregate entry (created as `{}` if absent).
     */
    method FetchComments(postId: int, reply: Result<seq<Comment>>) returns (requested: bool)
      modifies this
      ensures requested <==> postId !in old(perPost)
      ensures requested && reply.Success? ==> perPost == old(perPost)[postId := reply.value]
      ensures requested && reply.Success? ==> aggregate == Some(WithList(old(aggregate).GetOr(map[]), postId, reply.value))
      ensures !requested || reply.Failure? ==> perPost == old(perPost) && aggregate == old(aggregate)
      ensures stale == old(stale)
    {
      if postId in perPost {
        return false;
      }
      requested := true;
      if reply.Success? {
        perPost := perPost[postId := reply.value];
        aggregate := Some(WithList(aggregate.GetOr(map[]), postId, reply.value));
      }
    }
  }
}
