/** The user store (`src/stores/userStore.ts`): the user whose profile is shown. */
module UserStore {
  import opened Wrappers
  import opened Entities

  class Store {
    var selectedUser: Option<User>

    constructor ()
      ensures selectedUser == None
    {
      selectedUser := None;
    }

    method SetSelectedUser(user: Option<User>)
      modifies this
      ensures selectedUser == user
    {
      selectedUser := user;
    }

    /** Ends at `null` whatever the previous value, so a second call changes nothing. */
    method ClearSelectedUser()
      modifies this
      ensures selectedUser == None
    {
      selectedUser := None;
    }
  }
}
