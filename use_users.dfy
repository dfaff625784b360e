/**
 * `src/hooks/useUsers.ts`: opening the user modal, cache-first. The query
 * cache's `["user", id]` entries are a map from the requested id to the
 * user; `["user"]` holds the user on display.
 */
module UseUsers {
  import opened Wrappers
  import opened Entities

  /** The cached users, the user on display, and the modal flag. */
  datatype UsersState = UsersState(cache: map<int, User>, current: Option<User>, showUserModal: bool)

  /**
   * `openUserModal` for the user with id `id`: a cached user is shown
   * without a request; otherwise the fetched user (`reply`) is cached under
   * `id` and shown; a failed fetch changes nothing.
   */
  function AfterOpen(s: UsersState, id: int, reply: Result<User>): (r: UsersState)
    ensures id in s.cache ==> r.cache == s.cache && r.current == Some(s.cache[id]) && r.showUserModal
    ensures id !in s.cache && reply.Success? ==>
      r.cache == s.cache[id := reply.value] && r.current == Some(reply.value) && r.showUserModal
    ensures id !in s.cache && reply.Failure? ==> r == s
  {
    if id in s.cache then s.(current := Some(s.cache[id]), showUserModal := true)
    else if reply.Success? then UsersState(s.cache[id := reply.value], Some(reply.value), true)
    else s
  }

  /** The user on display is always one of the cached users. */
  ghost predicate CurrentIsCached(s: UsersState) {
    s.current.Some? ==> exists id :: id in s.cache && s.cache[id] == s.current.value
  }

  lemma OpenKeepsCurrentCached(s: UsersState, id: int, reply: Result<User>)
    requires CurrentIsCached(s)
    ensures CurrentIsCached(AfterOpen(s, id, reply))
  {
    var r := AfterOpen(s, id, reply);
    if id in s.cache || reply.Success? {
      assert id in r.cache && r.cache[id] == r.current.value;
    }
  }

  /** Once a user has been opened, opening it again needs no request and changes nothing. */
  lemma OpenTwice(s: UsersState, id: int, first: Result<User>, second: Result<User>)
    requires id in s.cache || first.Success?
    ensures id in AfterOpen(s, id, first).cache
    ensures AfterOpen(AfterOpen(s, id, first), id, second) == AfterOpen(s, id, first)
  {
  }

  class Hook {
    var cache: map<int, User>
    var current: Option<User>
    var showUserModal: bool

    function View(): UsersState
      reads this
    {
      UsersState(cache, current, showUserModal)
    }

    /** The modal starts hidden and no user is on display. */
    constructor (cache: map<int, User>)
      ensures View() == UsersState(cache, None, false)
      ensures SelectedUser() == None
    {
      this.cache, current, showUserModal := cache, None, false;
    }

    /** `selectedUser || null` */
    function SelectedUser(): (r: Option<User>)
      reads this
      ensures r == View().current
    {
      current
    }

    /**
     * Returns whether the user was requested from the server. A post whose
     * author was not found passes `undefined`: reading `user.id` throws, so
     * no request is made and nothing changes.
     */
    method OpenUserModal(user: Option<Author>, reply: Result<User>) returns (requested: bool)
      modifies this
      ensures requested <==> user.Some? && user.value.id !in old(cache)
      ensures user.None? ==> View() == old(View())
      ensures user.Some? ==> View() == AfterOpen(old(View()), user.value.id, reply)
    {
      if user.None? {
        return false;
      }
      var id := user.value.id;
      if id in cache {
        current := Some(cache[id]);
        showUserModal := true;
        return false;
      }
      requested := true;
      if reply.Success? {
        cache := cache[id := reply.value];
        current := Some(reply.value);
        showUserModal := true;
      }
    }

    method SetShowUserModal(show: bool)
      modifies this
      ensures View() == old(View()).(showUserModal := show)
    {
      showUserModal := show;
    }
  }
}
