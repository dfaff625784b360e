/**
 * The comments hook (`src/hooks/useComments.ts`): the aggregate
 * `{postId: Comment[]}` query entry and the per-post entries in the shared
 * query cache, patched after each comment mutation, plus the cache-first
 * `fetchComments`.
 */
module UseComments {
  import opened Wrappers
  import opened Entities
  import opened CommentCache
  import opened SharedCommentStore
  import PostsApi
  import UiStore

  class Hook {
    const store: SharedCommentStore.Store
    const ui: UiStore.Store
    /** The `["comments"]` entry; absent until the first `fetchComments`. */
    var aggregate: Option<CommentsByPost>
    /** The `["comments", postId]` entries. */
    var perPost: map<int, seq<Comment>>

    constructor (store: SharedCommentStore.Store, ui: UiStore.Store, perPost: map<int, seq<Comment>>)
      ensures this.store == store && this.ui == ui
      ensures aggregate.None? && this.perPost == perPost
    {
      this.store, this.ui := store, ui;
      aggregate, this.perPost := None, perPost;
    }

    /** `comments`: the aggregate entry, or `{}` while there is none. */
    function Comments(): (r: CommentsByPost)
      reads this
      ensures aggregate.None? ==> r == map[]
      ensures aggregate.Some? ==> r == aggregate.value
    {
      aggregate.GetOr(map[])
    }

    /**
     * `addComment()`: sends the draft when its `postId` is truthy; on success
     * the reply is appended under its post in the aggregate entry, the add
     * dialog closes and the draft resets.
     */
    method AddComment(reply: Result<Comment>) returns (sent: Option<AddRequest>)
      modifies this, store, ui
      ensures sent == AddRequestOf(old(store.newComment))
      ensures sent.Some? && reply.Success? ==> aggregate == AddToAggregate(old(aggregate), reply.value)
      ensures sent.Some? && reply.Success? ==> ui.View() == old(ui.View()).(showAddCommentDialog := false)
      ensures sent.Some? && reply.Success? ==> store.View() == old(store.View()).(newComment := Fields(EmptyDraft))
      ensures sent.None? || reply.Failure? ==>
        aggregate == old(aggregate) && ui.View() == old(ui.View()) && store.View() == old(store.View())
      ensures perPost == old(perPost)
    {
      sent := AddRequestOf(store.newComment);
      if sent.Some? && reply.Success? {
        aggregate := AddToAggregate(aggregate, reply.value);
        ui.SetShowAddCommentDialog(false);
        store.ResetNewComment();
      }
    }

    /**
     * `updateComment()`: sends the selected comment's id and text; on
     * success the reply replaces it in its post's aggregate list and the
     * edit dialog closes.
     */
    method UpdateComment(reply: Result<Comment>) returns (sent: Option<UpdateRequest>)
      modifies this, ui
      ensures old(store.selectedComment).None? ==> sent.None?
      ensures old(store.selectedComment).Some? ==>
        sent == Some(UpdateRequest(old(store.selectedComment).value.id, old(store.selectedComment).value.body))
      ensures sent.Some? && reply.Success? ==> aggregate == UpdateInAggregate(old(aggregate), reply.value)
      ensures sent.Some? && reply.Success? ==> ui.View() == old(ui.View()).(showEditCommentDialog := false)
      ensures sent.None? || reply.Failure? ==> aggregate == old(aggregate) && ui.View() == old(ui.View())
      ensures perPost == old(perPost)
    {
      sent := None;
      if store.selectedComment.Some? {
        var c := store.selectedComment.value;
        sent := Some(UpdateRequest(c.id, c.body));
        if reply.Success? {
          aggregate := UpdateInAggregate(aggregate, reply.value);
          ui.SetShowEditCommentDialog(false);
        }
      }
    }

    /** `deleteComment(id)`: once the request completes, the id leaves every aggregate list. */
    method DeleteComment(id: int, sent: PostsApi.Outcome)
      modifies this
      ensures sent.Pass? && old(aggregate).Some? ==> aggregate == Some(DeletedEverywhere(old(aggregate).value, id))
      ensures sent.Fail? || old(aggregate).None? ==> aggregate == old(aggregate)
      ensures perPost == old(perPost)
    {
      if sent.Pass? {
        aggregate := DeleteFromAggregate(aggregate, id);
      }
    }

    /** `likeComment(id)`: on success every cached copy of the reply's comment becomes the reply with one more like. */
    method LikeComment(id: int, reply: Result<Comment>)
      modifies this
      ensures reply.Success? && old(aggregate).Some? ==> aggregate == Some(LikedEverywhere(old(aggregate).value, reply.value))
      ensures reply.Failure? || old(aggregate).None? ==> aggregate == old(aggregate)
      ensures perPost == old(perPost)
    {
      if reply.Success? {
        aggregate := LikeInAggregate(aggregate, reply.value);
      }
    }

    /**
     * `fetchComments(postId)`: nothing when the post's entry is cached;
     * otherwise the fetched list is cached under the post and set under
     * its id in the aggregate entry (created as `{}` if absent).
     */
    method FetchComments(postId: int, reply: Result<seq<Comment>>) returns (requested: bool)
      modifies this
      ensures requested <==> postId !in old(perPost)
      ensures requested && reply.Success? ==> perPost == old(perPost)[postId := reply.value]
      ensures requested && reply.Success? ==> aggregate == Some(WithList(old(aggregate).GetOr(map[]), postId, reply.value))
      ensures !requested || reply.Failure? ==> perPost == old(perPost) && aggregate == old(aggregate)
    {
      if postId in perPost {
        return false;
      }
      requested := true;
      if reply.Success? {
        perPost := perPost[postId := reply.value];
        aggregate := Some(WithList(aggregate.GetOr(map[]), postId, reply.value));
      }
    }
  }
}
