/**
 * `useAuthState`: a module-wide `currentUser` ref, hydrated from the
 * `'currentUser'` key of `localStorage` when the module loads and kept in
 * sync with it by a watcher. The watcher is modelled as a hook that runs
 * after every assignment to `currentUser`.
 */
module AuthState {
  import opened Js
  import opened Users
  import opened Browser

  /** The user the module starts with: the parsed stored value, or null when it is absent, empty or malformed. */
  function Hydrate(s: Option<Text<UserRecord>>): (u: Option<UserRecord>)
    ensures s.Some? && s.value.Serialized? ==> u == Some(s.value.value)
    ensures s.None? || s.value.Malformed? ==> u.None?
  {
    if s.Some? && TextIsTruthy(s.value) then
      match Parse(s.value)
      case Success(v) => Some(v)
      case Failure(_) => None
    else None
  }

  class Session {
    var currentUser: Option<UserRecord>
    /** `localStorage['currentUser']` */
    const stored: StorageItem<Text<UserRecord>>

    /** The held user and the stored copy agree. */
    ghost predicate Mirrored()
      reads this, stored
    {
      stored.item == if currentUser.Some? then Some(Stringify(currentUser.value)) else None
    }

    /** Module load: hydrate from storage; a parse failure yields null and nothing throws. */
    constructor (stored: StorageItem<Text<UserRecord>>)
      ensures this.stored == stored
      ensures currentUser == Hydrate(stored.item)
    {
      this.stored := stored;
      currentUser := Hydrate(stored.item);
    }

    /** `isLoggedIn`: `!!currentUser.value` */
    function IsLoggedIn(): (b: bool)
      reads this
      ensures b <==> currentUser.Some?
    {
      currentUser.Some?
    }

    /** The watcher: store the serialized user, or remove the key for null. */
    method Sync()
      modifies stored
      ensures Mirrored()
    {
      if currentUser.Some? {
        stored.SetItem(Stringify(currentUser.value));
      } else {
        stored.RemoveItem();
      }
    }

    /** `currentUser.value = v` from any caller, followed by the watcher. */
    method Assign(v: Option<UserRecord>)
      modifies this, stored
      ensures currentUser == v && Mirrored()
    {
      currentUser := v;
      Sync();
    }

    /** `login(user)` */
    method Login(user: UserRecord)
      modifies this, stored
      ensures currentUser == Some(user) && stored.item == Some(Stringify(user))
      ensures IsLoggedIn() && Mirrored()
    {
      currentUser := Some(user);
      stored.SetItem(Stringify(user));
      Sync();
    }

    /** `logout()` */
    method Logout()
      modifies this, stored
      ensures currentUser.None? && stored.item.None?
      ensures !IsLoggedIn() && Mirrored()
    {
      currentUser := None;
      stored.RemoveItem();
      Sync();
    }
  }

  /**
   * Hydrating from what the watcher stored gives the same user back, so a
   * reload restores the session.
   */
  lemma HydrateAfterSync(u: Option<UserRecord>)
    ensures Hydrate(if u.Some? then Some(Stringify(u.value)) else None) == u
  {
  }
}
