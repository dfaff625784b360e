/** The UI store (`src/stores/uiStore.ts`): six dialog flags and a loading indicator. */
module UiStore {
  import opened Wrappers

  datatype UIState = UIState(
    showAddPostDialog: bool,
    showEditPostDialog: bool,
    showPostDetailDialog: bool,
    showAddCommentDialog: bool,
    showEditCommentDialog: bool,
    showUserModal: bool,
    isLoading: bool,
    loadingMessage: string)

  /** Every dialog hidden, not loading, no message. */
  const Initial := UIState(false, false, false, false, false, false, false, "")

  /** What `closeAllModals` leaves: the six dialog flags false, the loading fields as they were. */
  function AllClosed(s: UIState): (r: UIState)
    ensures !r.showAddPostDialog && !r.showEditPostDialog && !r.showPostDetailDialog
    ensures !r.showAddCommentDialog && !r.showEditCommentDialog && !r.showUserModal
    ensures r.isLoading == s.isLoading && r.loadingMessage == s.loadingMessage
  {
    s.(showAddPostDialog := false, showEditPostDialog := false, showPostDetailDialog := false,
       showAddCommentDialog := false, showEditCommentDialog := false, showUserModal := false)
  }

  /** Closing every dialog twice is closing them once. */
  lemma AllClosedIdempotent(s: UIState)
    ensures AllClosed(AllClosed(s)) == AllClosed(s)
  {
  }

  class Store {
    var showAddPostDialog: bool
    var showEditPostDialog: bool
    var showPostDetailDialog: bool
    var showAddCommentDialog: bool
    var showEditCommentDialog: bool
    var showUserModal: bool
    var isLoading: bool
    var loadingMessage: string

    function View(): UIState
      reads this
    {
      UIState(showAddPostDialog, showEditPostDialog, showPostDetailDialog, showAddCommentDialog,
              showEditCommentDialog, showUserModal, isLoading, loadingMessage)
    }

    constructor ()
      ensures View() == Initial
    {
      showAddPostDialog, showEditPostDialog, showPostDetailDialog := false, false, false;
      showAddCommentDialog, showEditCommentDialog, showUserModal := false, false, false;
      isLoading, loadingMessage := false, "";
    }

    method SetShowAddPostDialog(show: bool)
      modifies this
      ensures View() == old(View()).(showAddPostDialog := show)
    {
      showAddPostDialog := show;
    }

    method SetShowEditPostDialog(show: bool)
      modifies this
      ensures View() == old(View()).(showEditPostDialog := show)
    {
      showEditPostDialog := show;
    }

    method SetShowPostDetailDialog(show: bool)
      modifies this
      ensures View() == old(View()).(showPostDetailDialog := show)
    {
      showPostDetailDialog := show;
    }

    method SetShowAddCommentDialog(show: bool)
      modifies this
      ensures View() == old(View()).(showAddCommentDialog := show)
    {
      showAddCommentDialog := show;
    }

    method SetShowEditCommentDialog(show: bool)
      modifies this
      ensures View() == old(View()).(showEditCommentDialog := show)
    {
      showEditCommentDialog := show;
    }

    method SetShowUserModal(show: bool)
      modifies this
      ensures View() == old(View()).(showUserModal := show)
    {
      showUserModal := show;
    }

    /** `setLoading(loading, message = "")`: an omitted message becomes `""`. */
    method SetLoading(loading: bool, message: Option<string>)
      modifies this
      ensures View() == old(View()).(isLoading := loading, loadingMessage := message.GetOr(""))
    {
      isLoading := loading;
      loadingMessage := message.GetOr("");
    }

    method CloseAllModals()
      modifies this
      ensures View() == AllClosed(old(View()))
    {
      showAddPostDialog, showEditPostDialog, showPostDetailDialog := false, false, false;
      showAddCommentDialog, showEditCommentDialog, showUserModal := false, false, false;
    }
  }
}
