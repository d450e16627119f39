/**
 * `useCurrentUser`: the local user as a `user` ref mirrored into the
 * `'currentUser'` key of `localStorage`, loaded on mount.
 */
module CurrentUser {
  import opened Js
  import opened Users
  import opened Browser

  /** `{ ...u, isGithubConnected: true, githubToken: token }` */
  function WithGithub(u: UserRecord, token: Option<string>): (r: UserRecord)
    ensures r.isGithubConnected == Some(true) && r.githubToken == token
    ensures r.username == u.username && r.email == u.email && r.password == u.password
    ensures r.phone == u.phone && r.address == u.address
  {
    u.(isGithubConnected := Some(true), githubToken := token)
  }

  /** Connecting twice with one token is connecting once. */
  lemma WithGithubIdempotent(u: UserRecord, token: Option<string>)
    ensures WithGithub(WithGithub(u, token), token) == WithGithub(u, token)
  {
  }

  class Holder {
    var user: Option<UserRecord>
    /** `localStorage['currentUser']` */
    const stored: StorageItem<Text<UserRecord>>

    /** `user` and the stored copy agree. */
    ghost predicate Mirrored()
      reads this, stored
    {
      stored.item == if user.Some? then Some(Stringify(user.value)) else None
    }

    /** `useCurrentUser()`: starts with no user and runs `loadUser`. */
    constructor (stored: StorageItem<Text<UserRecord>>)
      modifies stored
      ensures this.stored == stored
      ensures old(stored.item).Some? && old(stored.item).value.Serialized? ==>
        user == Some(old(stored.item).value.value) && Mirrored()
      ensures old(stored.item).None? || !TextIsTruthy(old(stored.item).value) ==>
        user.None? && stored.item == old(stored.item)
      ensures old(stored.item).Some? && old(stored.item).value.Malformed? && TextIsTruthy(old(stored.item).value) ==>
        user.None? && stored.item.None?
    {
      user := None;
      this.stored := stored;
      new;
      LoadUser();
    }

    /**
     * `loadUser()`: takes the parsed `'currentUser'` when present; a parse
     * failure removes the key and leaves no user; an absent key leaves `user`
     * as it was. It never throws.
     */
    method LoadUser()
      modifies this, stored
      ensures old(stored.item).None? || !TextIsTruthy(old(stored.item).value) ==>
        user == old(user) && stored.item == old(stored.item)
      ensures old(stored.item).Some? && old(stored.item).value.Serialized? ==>
        user == Some(old(stored.item).value.value) && stored.item == old(stored.item) && Mirrored()
      ensures old(stored.item).Some? && old(stored.item).value.Malformed? && TextIsTruthy(old(stored.item).value) ==>
        user.None? && stored.item.None? && Mirrored()
    {
      var s := stored.item;
      if s.Some? && TextIsTruthy(s.value) {
        match Parse(s.value) {
          case Success(u) =>
            user := Some(u);
          case Failure(_) =>
            stored.RemoveItem();
            user := None;
        }
      }
    }

    /** `logout()`: removes the key and clears the user. */
    method Logout()
      modifies this, stored
      ensures user.None? && stored.item.None? && Mirrored()
    {
      stored.RemoveItem();
      user := None;
    }

    /**
     * `connectGithub(token)`: with a user, marks it connected with the token,
     * keeps its other fields and mirrors it; without one, does nothing.
     */
    method ConnectGithub(token: Option<string>)
      modifies this, stored
      ensures old(user).None? ==> user.None? && stored.item == old(stored.item)
      ensures old(user).Some? ==> user == Some(WithGithub(old(user).value, token)) && Mirrored()
    {
      if user.Some? {
        user := Some(WithGithub(user.value, token));
        stored.SetItem(Stringify(user.value));
      }
    }
  }
}
