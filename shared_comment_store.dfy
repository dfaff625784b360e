/**
 * The shared comment store (`src/shared/stores/commentStore.ts`): comment
 * lists per post, the selected comment, an untyped new-comment draft and a
 * modal flag.
 */
module SharedCommentStore {
  import opened Wrappers
  import opened Entities
  import opened CommentCache

  /** The fields of the untyped draft object the client reads; each may be missing. */
  datatype Draft = Draft(body: Option<string>, postId: Option<int>, userId: Option<int>)

  /** `{}` */
  const EmptyDraft := Draft(None, None, None)

  /**
   * What `newComment` holds: an object with draft fields, or, when a caller
   * passes a function to `setNewComment`, that function itself (the setter
   * stores its argument as it is). `Updater(postId)` stands for
   * `prev => ({...prev, postId})`.
   */
  datatype DraftValue = Fields(draft: Draft) | Updater(postId: int)

  /** `newComment.postId`: a function object has no such property. */
  function PostIdOf(v: DraftValue): (r: Option<int>)
    ensures v.Updater? ==> r.None?
    ensures v.Fields? ==> r == v.draft.postId
  {
    match v
    case Fields(d) => d.postId
    case Updater(_) => None
  }

  /** `{...v}`: spreading a function copies no fields. */
  function DraftOf(v: DraftValue): (r: Draft)
    ensures v.Updater? ==> r == EmptyDraft
    ensures v.Fields? ==> r == v.draft
  {
    match v
    case Fields(d) => d
    case Updater(_) => EmptyDraft
  }

  /** The body `addComment` posts: `{body, postId, userId}` read off the draft. */
  datatype AddRequest = AddRequest(body: Option<string>, postId: int, userId: Option<int>)

  /**
   * The guard and request of `addComment()`: nothing is sent unless
   * `newComment.postId` is truthy (present and not 0).
   */
  function AddRequestOf(v: DraftValue): (r: Option<AddRequest>)
    ensures r.Some? <==> PostIdOf(v).Some? && PostIdOf(v).value != 0
    ensures r.Some? ==> r.value == AddRequest(DraftOf(v).body, PostIdOf(v).value, DraftOf(v).userId)
  {
    match v
    case Updater(_) => None
    case Fields(d) =>
      if d.postId.Some? && d.postId.value != 0 then Some(AddRequest(d.body, d.postId.value, d.userId)) else None
  }

  /** An updater function in the draft never lets a comment be sent. */
  lemma UpdaterBlocksAdd(postId: int)
    ensures AddRequestOf(Updater(postId)).None?
  {
  }

  /** The body `updateComment` puts: the selected comment's id and text. */
  datatype UpdateRequest = UpdateRequest(id: int, body: string)

  /** A `[field]: value` write to the draft. */
  datatype DraftField = DraftBody(body: string) | DraftPostId(postId: int) | DraftUserId(userId: int)

  /** `{...draft, [field]: value}`: the named field is set, the other two kept. */
  function WithDraftField(d: Draft, f: DraftField): (r: Draft)
    ensures f.DraftBody? ==> r.body == Some(f.body) && r.postId == d.postId && r.userId == d.userId
    ensures f.DraftPostId? ==> r.postId == Some(f.postId) && r.body == d.body && r.userId == d.userId
    ensures f.DraftUserId? ==> r.userId == Some(f.userId) && r.body == d.body && r.postId == d.postId
  {
    match f
    case DraftBody(b) => d.(body := Some(b))
    case DraftPostId(p) => d.(postId := Some(p))
    case DraftUserId(u) => d.(userId := Some(u))
  }

  /** A `[field]: value` write to the selected comment, one case per field of `Comment`. */
  datatype CommentField =
    | CommentId(id: int)
    | CommentBody(body: string)
    | CommentPostId(postId: int)
    | CommentUserId(userId: int)
    | CommentLikes(likes: int)
    | CommentAuthor(user: CommentUser)

  /** `{...comment, [field]: value}`: the named field is set, every other kept. */
  function WithCommentField(c: Comment, f: CommentField): (r: Comment)
    ensures r.id == (if f.CommentId? then f.id else c.id)
    ensures r.body == (if f.CommentBody? then f.body else c.body)
    ensures r.postId == (if f.CommentPostId? then f.postId else c.postId)
    ensures r.userId == (if f.CommentUserId? then f.userId else c.userId)
    ensures r.likes == (if f.CommentLikes? then f.likes else c.likes)
    ensures r.user == (if f.CommentAuthor? then f.user else c.user)
  {
    match f
    case CommentId(n) => c.(id := n)
    case CommentBody(b) => c.(body := b)
    case CommentPostId(p) => c.(postId := p)
    case CommentUserId(u) => c.(userId := u)
    case CommentLikes(n) => c.(likes := n)
    case CommentAuthor(u) => c.(user := u)
  }

  /**
   * `{...m, [postId]: (m[postId] || []).filter(c => c.id !== commentId)}`:
   * only that post's list is filtered, and a missing list becomes `[]`.
   */
  function DeletedUnder(m: CommentsByPost, postId: int, commentId: int): (r: CommentsByPost)
    ensures r.Keys == m.Keys + {postId}
    ensures forall i :: 0 <= i < |r[postId]| ==> r[postId][i].id != commentId
    ensures forall i :: 0 <= i < |ListOf(m, postId)| && ListOf(m, postId)[i].id != commentId ==> ListOf(m, postId)[i] in r[postId]
    ensures postId !in m ==> r[postId] == []
    ensures forall k :: k in m && k != postId ==> r[k] == m[k]
  {
    WithoutCommentSpec(ListOf(m, postId), commentId);
    m[postId := WithoutComment(ListOf(m, postId), commentId)]
  }

  /** Adding a comment to a post and deleting it again leaves that post's list as it was, if it did not hold the id. */
  lemma {:induction false} AddThenDelete(m: CommentsByPost, postId: int, c: Comment)
    requires forall i :: 0 <= i < |ListOf(m, postId)| ==> ListOf(m, postId)[i].id != c.id
    ensures DeletedUnder(AppendUnder(m, postId, c), postId, c.id)[postId] == ListOf(m, postId)
  {
    var keep := (x: Comment) => x.id != c.id;
    Lists.FilterAppend(ListOf(m, postId), [c], keep);
    Lists.FilterKeepsAll(ListOf(m, postId), keep);
    assert Lists.Filter([c], keep) == [];
  }

  datatype CommentState = CommentState(
    comments: CommentsByPost,
    selectedComment: Option<Comment>,
    newComment: DraftValue,
    showCommentModal: bool)

  const Initial := CommentState(map[], None, Fields(EmptyDraft), false)

  class Store {
    var comments: CommentsByPost
    var selectedComment: Option<Comment>
    var newComment: DraftValue
    var showCommentModal: bool

    function View(): CommentState
      reads this
    {
      CommentState(comments, selectedComment, newComment, showCommentModal)
    }

    constructor ()
      ensures View() == Initial
    {
      comments, selectedComment, newComment, showCommentModal := map[], None, Fields(EmptyDraft), false;
    }

    method SetComments(postId: int, list: seq<Comment>)
      modifies this
      ensures View() == old(View()).(comments := WithList(old(comments), postId, list))
    {
      comments := WithList(comments, postId, list);
    }

    method AddComment(postId: int, comment: Comment)
      modifies this
      ensures View() == old(View()).(comments := AppendUnder(old(comments), postId, comment))
    {
      comments := AppendUnder(comments, postId, comment);
    }

    method DeleteComment(postId: int, commentId: int)
      modifies this
      ensures View() == old(View()).(comments := DeletedUnder(old(comments), postId, commentId))
    {
      comments := DeletedUnder(comments, postId, commentId);
    }

    method SetSelectedComment(comment: Option<Comment>)
      modifies this
      ensures View() == old(View()).(selectedComment := comment)
    {
      selectedComment := comment;
    }

    /** Sets one field of the selected comment; with none selected it stays `null`. */
    method UpdateComment(f: CommentField)
      modifies this
      ensures old(selectedComment).None? ==> View() == old(View())
      ensures old(selectedComment).Some? ==>
        View() == old(View()).(selectedComment := Some(WithCommentField(old(selectedComment).value, f)))
    {
      if selectedComment.Some? {
        selectedComment := Some(WithCommentField(selectedComment.value, f));
      }
    }

    /** Stores its argument as it is, even when that argument is an updater function. */
    method SetNewComment(v: DraftValue)
      modifies this
      ensures View() == old(View()).(newComment := v)
    {
      newComment := v;
    }

    method UpdateNewComment(f: DraftField)
      modifies this
      ensures View() == old(View()).(newComment := Fields(WithDraftField(DraftOf(old(newComment)), f)))
    {
      newComment := Fields(WithDraftField(DraftOf(newComment), f));
    }

    method ResetNewComment()
      modifies this
      ensures View() == old(View()).(newComment := Fields(EmptyDraft))
    {
      newComment := Fields(EmptyDraft);
    }

    method SetShowCommentModal(show: bool)
      modifies this
      ensures View() == old(View()).(showCommentModal := show)
    {
      showCommentModal := show;
    }
  }
}
