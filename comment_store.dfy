/**
 * The older comment store (`src/stores/commentStore.ts`): the selected
 * comment and a typed new-comment form.
 */
module CommentStore {
  import opened Wrappers
  import opened Entities

  /** `{body, postId: number | null, userId}` */
  datatype NewComment = NewComment(body: string, postId: Option<int>, userId: int)

  /** No text, no post, user 1. */
  const InitialNewComment := NewComment("", None, 1)

  /** `Partial<NewComment>`: each field supplied or not; a supplied `postId` may itself be `null`. */
  datatype NewCommentPatch = NewCommentPatch(body: Option<string>, postId: Option<Option<int>>, userId: Option<int>)

  /** `{...form, ...patch}`: supplied fields overwrite, the others are kept. */
  function MergeNewComment(form: NewComment, patch: NewCommentPatch): (r: NewComment)
    ensures patch.body.Some? ==> r.body == patch.body.value
    ensures patch.body.None? ==> r.body == form.body
    ensures patch.postId.Some? ==> r.postId == patch.postId.value
    ensures patch.postId.None? ==> r.postId == form.postId
    ensures patch.userId.Some? ==> r.userId == patch.userId.value
    ensures patch.userId.None? ==> r.userId == form.userId
  {
    NewComment(patch.body.GetOr(form.body), patch.postId.GetOr(form.postId), patch.userId.GetOr(form.userId))
  }

  /** Merging an empty patch changes nothing. */
  lemma MergeEmptyPatch(form: NewComment)
    ensures MergeNewComment(form, NewCommentPatch(None, None, None)) == form
  {
  }

  datatype CommentFormState = CommentFormState(selectedComment: Option<Comment>, newComment: NewComment)

  class Store {
    var selectedComment: Option<Comment>
    var newComment: NewComment

    function View(): CommentFormState
      reads this
    {
      CommentFormState(selectedComment, newComment)
    }

    constructor ()
      ensures View() == CommentFormState(None, InitialNewComment)
    {
      selectedComment, newComment := None, InitialNewComment;
    }

    method SetSelectedComment(comment: Option<Comment>)
      modifies this
      ensures View() == old(View()).(selectedComment := comment)
    {
      selectedComment := comment;
    }

    method SetNewComment(form: NewComment)
      modifies this
      ensures View() == old(View()).(newComment := form)
    {
      newComment := form;
    }

    method UpdateNewComment(patch: NewCommentPatch)
      modifies this
      ensures View() == old(View()).(newComment := MergeNewComment(old(newComment), patch))
    {
      newComment := MergeNewComment(newComment, patch);
    }

    /** Ends at the initial form whatever came before, so a second call changes nothing. */
    method ResetNewComment()
      modifies this
      ensures View() == old(View()).(newComment := InitialNewComment)
    {
      newComment := InitialNewComment;
    }
  }
}
