/**
 * `useUserState`: the signed-in user's profile, held in `currentUser` and
 * mirrored to the `'currentUser'` key of `localStorage`, with one serialized
 * record per email key in the `users.bin` store. Every operation sets
 * `isLoading` for its duration and reports failures through `error` and a
 * `false` result.
 */
module UserState {
  import opened Js
  import opened Users
  import opened Browser
  import TauriStore
  import UserStore

  const UserNotFound := "User not found"
  const WrongPassword := "Current password is incorrect"
  const SaveFallback := "Failed to save user"
  const ProfileFallback := "Failed to update profile"
  const PasswordFallback := "Failed to update password"
  /** The `TypeError` raised by calling `userStore.delete`, which the store adapter does not have. */
  const DeleteIsNotAFunction := "userStore.delete is not a function"

  /** What reading a user's record from `users.bin` yields. */
  datatype Read = NotFound | ParseFails(reason: Exn) | Found(user: UserRecord)

  /**
   * `if (!existingUser)` and `JSON.parse(existingUser)` on what `get(email)`
   * returned: null and the empty string read as not found; an array (the
   * `'users'` layout) or malformed text makes `JSON.parse` throw.
   */
  function Classify(v: Option<UserStore.StoredValue>): (r: Read)
    ensures v.None? ==> r == NotFound
    ensures r.Found? ==> v == Some(UserStore.UserText(Serialized(r.user)))
    ensures v.Some? && v.value.UserText? && v.value.text.Serialized? ==> r == Found(v.value.text.value)
    ensures v.Some? && v.value.UserText? && !TextIsTruthy(v.value.text) ==> r == NotFound
    ensures v.Some? && v.value.UserList? ==> r == ParseFails(Error(SyntaxErrorMessage))
    ensures v.Some? && v.value.UserText? && TextIsTruthy(v.value.text) && Parse(v.value.text).Failure? ==>
      r == ParseFails(Parse(v.value.text).error)
  {
    match v
    case None => NotFound
    case Some(UserList(_)) => ParseFails(Error(SyntaxErrorMessage))
    case Some(UserText(t)) =>
      if !TextIsTruthy(t) then NotFound
      else match Parse(t)
        case Success(u) => Found(u)
        case Failure(e) => ParseFails(e)
  }

  /** Reading the record under `email`: a failed read is swallowed by `get` and reads as not found. */
  function ReadStored(entries: map<string, UserStore.StoredValue>, email: string, io: TauriStore.ReadIo): (r: Read)
    ensures io.ReadFails? || email !in entries ==> r == NotFound
    ensures r.Found? ==> email in entries && entries[email] == UserStore.UserText(Serialized(r.user))
  {
    if io.ReadFails? then NotFound else Classify(TauriStore.Lookup(entries, email))
  }

  /** `updates.email && updates.email !== currentEmail` */
  predicate EmailChanges(updates: UserPatch, currentEmail: string) {
    IsTruthy(updates.email) && updates.email.value != currentEmail
  }

  /** `currentUser.value?.email` is truthy. */
  predicate HasSession(u: Option<UserRecord>) {
    u.Some? && u.value.email != ""
  }

  class State {
    var currentUser: Option<UserRecord>
    var isLoading: bool
    var error: Option<string>
    /** `localStorage['currentUser']` */
    const stored: StorageItem<Text<UserRecord>>
    /** The `users.bin` store, loaded with `autoSave: true`. */
    const store: TauriStore.Store<UserStore.StoredValue>

    predicate Valid() {
      store.autoSave
    }

    /** `useUserState()` up to its initial load, which is `LoadFromLocalStorage`. */
    constructor (stored: StorageItem<Text<UserRecord>>, store: TauriStore.Store<UserStore.StoredValue>)
      requires store.autoSave
      ensures Valid()
      ensures currentUser.None? && !isLoading && error.None?
      ensures this.stored == stored && this.store == store
    {
      currentUser := None;
      isLoading := false;
      error := None;
      this.stored := stored;
      this.store := store;
    }

    /**
     * `loadFromLocalStorage()`: takes the parsed `'currentUser'` when it is a
     * non-empty string. A malformed value is not caught here: it makes
     * `useUserState()` throw.
     */
    method LoadFromLocalStorage() returns (r: Outcome)
      modifies this
      ensures isLoading == old(isLoading) && error == old(error)
      ensures stored.item.None? || !TextIsTruthy(stored.item.value) ==> r == Resolved && currentUser == old(currentUser)
      ensures stored.item.Some? && TextIsTruthy(stored.item.value) && stored.item.value.Serialized? ==>
        r == Resolved && currentUser == Some(stored.item.value.value)
      ensures stored.item.Some? && TextIsTruthy(stored.item.value) && stored.item.value.Malformed? ==>
        r == Rejected(Error(SyntaxErrorMessage)) && currentUser == old(currentUser)
    {
      r := Resolved;
      var s := stored.item;
      if s.Some? && TextIsTruthy(s.value) {
        match Parse(s.value)
        case Success(u) => currentUser := Some(u);
        case Failure(e) => r := Rejected(e);
      }
    }

    /**
     * `saveUser(user)`: writes `'currentUser'` and `currentUser` first, then the
     * serialized user under `user.email` in `users.bin`. A store failure leaves
     * the first two written and reports `false` with the error's message.
     */
    method SaveUser(user: UserRecord, io: TauriStore.WriteIo) returns (ok: bool)
      requires Valid()
      modifies this, stored, store
      ensures !isLoading
      ensures currentUser == Some(user) && stored.item == Some(Stringify(user))
      ensures var w := TauriStore.MutationOutcome(true, io);
        && ok == w.Resolved?
        && error == (if w.Rejected? then Some(InstanceMessage(w.reason, SaveFallback)) else None)
      ensures store.entries == (if io.WriteFails? then old(store.entries)
                                else old(store.entries)[user.email := UserStore.UserText(Stringify(user))])
      ensures store.persisted == (if io.WriteSucceeds? then store.entries else old(store.persisted))
    {
      isLoading := true;
      error := None;
      stored.SetItem(Stringify(user));
      currentUser := Some(user);
      var w := store.Set(user.email, UserStore.UserText(Stringify(user)), io);
      if w.Rejected? {
        error := Some(InstanceMessage(w.reason, SaveFallback));
        ok := false;
      } else {
        ok := true;
      }
      isLoading := false;
    }

    /**
     * `updateProfile(updates)` as written. Without a signed-in email it returns
     * `false` and touches nothing. Otherwise it reads the stored record, merges
     * the updates over it and, when the email is unchanged, writes the merged
     * record back and makes it the current user. When the email changes it
     * calls `userStore.delete`, which throws, so it ends with `false` and
     * nothing written.
     */
    method UpdateProfile(updates: UserPatch, readIo: TauriStore.ReadIo, writeIo: TauriStore.WriteIo)
      returns (ok: bool)
      requires Valid()
      modifies this, stored, store
      ensures !HasSession(old(currentUser)) ==>
        && !ok && isLoading == old(isLoading) && error == old(error)
        && currentUser == old(currentUser) && unchanged(stored, store)
      ensures HasSession(old(currentUser)) ==> !isLoading
      ensures HasSession(old(currentUser)) ==>
        var email := old(currentUser).value.email;
        var read := ReadStored(old(store.entries), email, readIo);
        && (read.NotFound? ==>
              !ok && error == Some(UserNotFound) && currentUser == old(currentUser) && unchanged(stored, store))
        && (read.ParseFails? ==>
              && !ok && error == Some(InstanceMessage(read.reason, ProfileFallback))
              && currentUser == old(currentUser) && unchanged(stored, store))
        && (read.Found? && EmailChanges(updates, email) ==>
              !ok && error == Some(DeleteIsNotAFunction) && currentUser == old(currentUser) && unchanged(stored, store))
      ensures HasSession(old(currentUser)) ==>
        var email := old(currentUser).value.email;
        var read := ReadStored(old(store.entries), email, readIo);
        read.Found? && !EmailChanges(updates, email) ==>
          var updated := Spread(read.user, updates);
          var w := TauriStore.MutationOutcome(true, writeIo);
          && store.entries == (if writeIo.WriteFails? then old(store.entries)
                               else old(store.entries)[email := UserStore.UserText(Stringify(updated))])
          && store.persisted == (if writeIo.WriteSucceeds? then store.entries else old(store.persisted))
          && ok == w.Resolved?
          && (w.Rejected? ==>
                && error == Some(InstanceMessage(w.reason, ProfileFallback))
                && currentUser == old(currentUser) && unchanged(stored))
          && (w.Resolved? ==>
                error.None? && currentUser == Some(updated) && stored.item == Some(Stringify(updated)))
    {
      if !HasSession(currentUser) {
        return false;
      }
      isLoading := true;
      error := None;
      var email := currentUser.value.email;
      var existing := store.Get(email, readIo);
      var read := Classify(existing);
      match read {
      case NotFound =>
        error := Some(UserNotFound);
        ok := false;
      case ParseFails(e) =>
        error := Some(InstanceMessage(e, ProfileFallback));
        ok := false;
      case Found(u) =>
        var updated := Spread(u, updates);
        if EmailChanges(updates, email) {
          // `userStore.delete` is not a member of the adapter: the call throws a TypeError.
          error := Some(DeleteIsNotAFunction);
          ok := false;
        } else {
          var w := store.Set(email, UserStore.UserText(Stringify(updated)), writeIo);
          if w.Rejected? {
            error := Some(InstanceMessage(w.reason, ProfileFallback));
            ok := false;
          } else {
            stored.SetItem(Stringify(updated));
            currentUser := Some(updated);
            ok := true;
          }
        }
      }
      isLoading := false;
    }

    /**
     * `updateProfile` with the old key removed through the adapter's `remove`,
     * as the comment at the email-change branch intends: the record moves from
     * the old email key to the new one.
     */
    method UpdateProfileMovingKey(updates: UserPatch, readIo: TauriStore.ReadIo, removeIo: TauriStore.WriteIo,
                                  writeIo: TauriStore.WriteIo)
      returns (ok: bool)
      requires Valid()
      modifies this, stored, store
      ensures !HasSession(old(currentUser)) ==>
        && !ok && isLoading == old(isLoading) && error == old(error)
        && currentUser == old(currentUser) && unchanged(stored, store)
      ensures HasSession(old(currentUser)) ==> !isLoading
      ensures HasSession(old(currentUser)) ==>
        var email := old(currentUser).value.email;
        var read := ReadStored(old(store.entries), email, readIo);
        && (read.NotFound? ==>
              !ok && error == Some(UserNotFound) && currentUser == old(currentUser) && unchanged(stored, store))
        && (read.ParseFails? ==>
              && !ok && error == Some(InstanceMessage(read.reason, ProfileFallback))
              && currentUser == old(currentUser) && unchanged(stored, store))
      ensures HasSession(old(currentUser)) ==>
        var email := old(currentUser).value.email;
        var read := ReadStored(old(store.entries), email, readIo);
        read.Found? && !EmailChanges(updates, email) ==>
          var updated := Spread(read.user, updates);
          var w := TauriStore.MutationOutcome(true, writeIo);
          && store.entries == (if writeIo.WriteFails? then old(store.entries)
                               else old(store.entries)[email := UserStore.UserText(Stringify(updated))])
          && store.persisted == (if writeIo.WriteSucceeds? then store.entries else old(store.persisted))
          && ok == w.Resolved?
          && (w.Rejected? ==> error == Some(InstanceMessage(w.reason, ProfileFallback)))
      ensures HasSession(old(currentUser)) ==>
        var email := old(currentUser).value.email;
        var read := ReadStored(old(store.entries), email, readIo);
        read.Found? && EmailChanges(updates, email) ==>
          var updated := Spread(read.user, updates);
          var removal := TauriStore.MutationOutcome(true, removeIo);
          var w := TauriStore.MutationOutcome(true, writeIo);
          var removed := if removeIo.WriteFails? then old(store.entries) else old(store.entries) - {email};
          && ok == (removal.Resolved? && w.Resolved?)
          && store.entries == (if removal.Rejected? || writeIo.WriteFails? then removed
                               else removed[updates.email.value := UserStore.UserText(Stringify(updated))])
          && store.persisted == (if removal.Rejected? then old(store.persisted)
                                 else if writeIo.WriteSucceeds? then store.entries else removed)
          && (removal.Rejected? ==> error == Some(InstanceMessage(removal.reason, ProfileFallback)))
          && (removal.Resolved? && w.Rejected? ==> error == Some(InstanceMessage(w.reason, ProfileFallback)))
      ensures HasSession(old(currentUser)) ==>
        var email := old(currentUser).value.email;
        var read := ReadStored(old(store.entries), email, readIo);
        read.Found? && EmailChanges(updates, email) && ok ==>
          var updated := Spread(read.user, updates);
          && email !in store.entries
          && updates.email.value in store.entries
          && store.entries[updates.email.value] == UserStore.UserText(Stringify(updated))
          && store.persisted == store.entries
      ensures HasSession(old(currentUser)) && !ok ==> currentUser == old(currentUser) && unchanged(stored)
      ensures HasSession(old(currentUser)) && ok ==>
        var read := ReadStored(old(store.entries), old(currentUser).value.email, readIo);
        && read.Found? && error.None?
        && currentUser == Some(Spread(read.user, updates)) && stored.item == Some(Stringify(currentUser.value))
    {
      if !HasSession(currentUser) {
        return false;
      }
      isLoading := true;
      error := None;
      var email := currentUser.value.email;
      var existing := store.Get(email, readIo);
      var read := Classify(existing);
      match read {
      case NotFound =>
        error := Some(UserNotFound);
        ok := false;
      case ParseFails(e) =>
        error := Some(InstanceMessage(e, ProfileFallback));
        ok := false;
      case Found(u) =>
        var updated := Spread(u, updates);
        var w := Resolved;
        if EmailChanges(updates, email) {
          w := store.Remove(email, removeIo);
          if w.Resolved? {
            w := store.Set(updates.email.value, UserStore.UserText(Stringify(updated)), writeIo);
          }
        } else {
          w := store.Set(email, UserStore.UserText(Stringify(updated)), writeIo);
        }
        if w.Rejected? {
          error := Some(InstanceMessage(w.reason, ProfileFallback));
          ok := false;
        } else {
          stored.SetItem(Stringify(updated));
          currentUser := Some(updated);
          ok := true;
        }
      }
      isLoading := false;
    }

    /**
     * `updatePassword(currentPassword, newPassword)`: checks the stored
     * password and writes the record back with only the password changed;
     * `currentUser` and `'currentUser'` are not touched.
     */
    method UpdatePassword(currentPassword: string, newPassword: string,
                          readIo: TauriStore.ReadIo, writeIo: TauriStore.WriteIo)
      returns (ok: bool)
      requires Valid()
      modifies this, store
      ensures currentUser == old(currentUser)
      ensures !HasSession(old(currentUser)) ==>
        !ok && isLoading == old(isLoading) && error == old(error) && unchanged(store)
      ensures HasSession(old(currentUser)) ==> !isLoading
      ensures HasSession(old(currentUser)) ==>
        var email := currentUser.value.email;
        var read := ReadStored(old(store.entries), email, readIo);
        && (read.NotFound? ==> !ok && error == Some(UserNotFound) && unchanged(store))
        && (read.ParseFails? ==>
              !ok && error == Some(InstanceMessage(read.reason, PasswordFallback)) && unchanged(store))
        && (read.Found? && read.user.password != Some(currentPassword) ==>
              !ok && error == Some(WrongPassword) && unchanged(store))
      ensures HasSession(old(currentUser)) ==>
        var email := currentUser.value.email;
        var read := ReadStored(old(store.entries), email, readIo);
        read.Found? && read.user.password == Some(currentPassword) ==>
          var updated := read.user.(password := Some(newPassword));
          var w := TauriStore.MutationOutcome(true, writeIo);
          && store.entries == (if writeIo.WriteFails? then old(store.entries)
                               else old(store.entries)[email := UserStore.UserText(Stringify(updated))])
          && store.persisted == (if writeIo.WriteSucceeds? then store.entries else old(store.persisted))
          && ok == w.Resolved?
          && error == (if w.Rejected? then Some(InstanceMessage(w.reason, PasswordFallback)) else None)
    {
      if !HasSession(currentUser) {
        return false;
      }
      isLoading := true;
      error := None;
      var email := currentUser.value.email;
      var existing := store.Get(email, readIo);
      var read := Classify(existing);
      match read {
      case NotFound =>
        error := Some(UserNotFound);
        ok := false;
      case ParseFails(e) =>
        error := Some(InstanceMessage(e, PasswordFallback));
        ok := false;
      case Found(u) =>
        if u.password != Some(currentPassword) {
          error := Some(WrongPassword);
          ok := false;
        } else {
          var updated := u.(password := Some(newPassword));
          var w := store.Set(email, UserStore.UserText(Stringify(updated)), writeIo);
          if w.Rejected? {
            error := Some(InstanceMessage(w.reason, PasswordFallback));
            ok := false;
          } else {
            ok := true;
          }
        }
      }
      isLoading := false;
    }
  }

  /** A password change alters the stored record's password field and nothing else. */
  lemma PasswordChangeOnlyTouchesPassword(u: UserRecord, newPassword: string)
    ensures var updated := u.(password := Some(newPassword));
      && updated.password == Some(newPassword)
      && updated == Spread(u, NoChanges.(password := Some(newPassword)))
  {
  }
}
