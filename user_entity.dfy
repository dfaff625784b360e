/**
 * `src/entities/user/model/hooks.ts`: the user entity hook. The same
 * cache-first `openUserModal` as the older hook, but the user on display is
 * the user store's `selectedUser` and the modal flag lives in the UI store.
 */
module UserEntity {
  import opened Wrappers
  import opened Entities
  import UseUsers
  import UserStore
  import UiStore

  /**
   * The returned `selectedUser`: the query data under the store's selected
   * user's id when it is cached, otherwise the store's value.
   */
  function ShownUser(cache: map<int, User>, selected: Option<User>): (r: Option<User>)
    ensures selected.None? ==> r.None?
    ensures selected.Some? && selected.value.id in cache ==> r == Some(cache[selected.value.id])
    ensures selected.Some? && selected.value.id !in cache ==> r == selected
  {
    if selected.Some? && selected.value.id in cache then Some(cache[selected.value.id]) else selected
  }

  /** Every cached user is stored under its own id. */
  predicate KeyedById(cache: map<int, User>) {
    forall k :: k in cache ==> cache[k].id == k
  }

  /**
   * When the server answers with the user that was asked for, opening a
   * user keeps the cache keyed by id, and the hook then shows the user it
   * selected.
   */
  lemma OpenShowsSelected(s: UseUsers.UsersState, id: int, reply: Result<User>)
    requires KeyedById(s.cache)
    requires reply.Success? ==> reply.value.id == id
    ensures KeyedById(UseUsers.AfterOpen(s, id, reply).cache)
    ensures id in s.cache || reply.Success? ==>
      ShownUser(UseUsers.AfterOpen(s, id, reply).cache, UseUsers.AfterOpen(s, id, reply).current)
        == UseUsers.AfterOpen(s, id, reply).current
  {
  }

  class Hook {
    var cache: map<int, User>
    const store: UserStore.Store
    const ui: UiStore.Store

    constructor (cache: map<int, User>, store: UserStore.Store, ui: UiStore.Store)
      ensures this.cache == cache && this.store == store && this.ui == ui
    {
      this.cache, this.store, this.ui := cache, store, ui;
    }

    function SelectedUser(): (r: Option<User>)
      reads this, store
      ensures store.selectedUser.Some? && store.selectedUser.value.id in cache ==> r == Some(cache[store.selectedUser.value.id])
      ensures !(store.selectedUser.Some? && store.selectedUser.value.id in cache) ==> r == store.selectedUser
    {
      ShownUser(cache, store.selectedUser)
    }

    /** Cache, selected user and modal flag move as in the older hook; nothing else in the UI store changes. */
    method OpenUserModal(user: Option<Author>, reply: Result<User>) returns (requested: bool)
      modifies this, store, ui
      ensures requested <==> user.Some? && user.value.id !in old(cache)
      ensures user.None? ==> cache == old(cache) && store.selectedUser == old(store.selectedUser) && ui.View() == old(ui.View())
      ensures user.Some? ==>
        var after := UseUsers.AfterOpen(UseUsers.UsersState(old(cache), old(store.selectedUser), old(ui.showUserModal)), user.value.id, reply);
        cache == after.cache && store.selectedUser == after.current
        && ui.View() == old(ui.View()).(showUserModal := after.showUserModal)
    {
      if user.None? {
        return false;
      }
      var id := user.value.id;
      if id in cache {
        store.SetSelectedUser(Some(cache[id]));
        ui.SetShowUserModal(true);
        return false;
      }
      requested := true;
      if reply.Success? {
        cache := cache[id := reply.value];
        store.SetSelectedUser(Some(reply.value));
        ui.SetShowUserModal(true);
      }
    }
  }
}
