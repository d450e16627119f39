/**
 * `useUserStore`: the list of registered users kept under the key `'users'`
 * of the `users.bin` store (loaded with `autoSave`), with a unique-email rule
 * on `addUser` and lookups by email.
 */
module UserStore {
  import opened Js
  import opened Users
  import TauriStore

  /**
   * A value in `users.bin`. This composable keeps the user array under
   * `'users'`; `useUserState` keeps one serialized user string per email key
   * in the same file.
   */
  datatype StoredValue = UserList(users: seq<UserRecord>) | UserText(text: Text<UserRecord>)

  const UsersKey := "users"
  const UserExists := "User already exists"
  const UserNotFound := "User not found"

  /** `Array.isArray(users) ? users : []` over what `get('users')` returned. */
  function UsersOf(v: Option<StoredValue>): (users: seq<UserRecord>)
    ensures v.Some? && v.value.UserList? ==> users == v.value.users
    ensures v.None? || v.value.UserText? ==> users == []
  {
    if v.Some? && v.value.UserList? then v.value.users else []
  }

  /** What `getUsers()` returns over the store's entries: a failed read is swallowed into `[]`. */
  function ListRead(entries: map<string, StoredValue>, io: TauriStore.ReadIo): (users: seq<UserRecord>)
    ensures io.ReadFails? ==> users == []
    ensures io.ReadSucceeds? ==> users == UsersOf(TauriStore.Lookup(entries, UsersKey))
  {
    if io.ReadFails? then [] else UsersOf(TauriStore.Lookup(entries, UsersKey))
  }

  /** No two users in the list share an email. */
  predicate UniqueEmails(users: seq<UserRecord>) {
    forall i, j :: 0 <= i < j < |users| ==> users[i].email != users[j].email
  }

  /** `users.some(u => u.email === email)` */
  predicate HasEmail(users: seq<UserRecord>, email: string) {
    exists i :: 0 <= i < |users| && users[i].email == email
  }

  /** The credentials test of `findUser`. */
  predicate Matches(u: UserRecord, email: string, password: string) {
    u.email == email && u.password == Some(password)
  }

  /** `users.findIndex(u => u.email === email && u.password === password)` */
  function CredentialsIndex(users: seq<UserRecord>, email: string, password: string): (r: int)
    ensures -1 <= r < |users|
    ensures r >= 0 ==> Matches(users[r], email, password)
    ensures r >= 0 ==> forall j :: 0 <= j < r ==> !Matches(users[j], email, password)
    ensures r == -1 ==> forall j :: 0 <= j < |users| ==> !Matches(users[j], email, password)
  {
    if users == [] then -1
    else if Matches(users[0], email, password) then 0
    else
      var k := CredentialsIndex(users[1..], email, password);
      if k == -1 then -1 else k + 1
  }

  /** `users.findIndex(u => u.email === email)` */
  function EmailIndex(users: seq<UserRecord>, email: string): (r: int)
    ensures -1 <= r < |users|
    ensures r >= 0 ==> users[r].email == email
    ensures r >= 0 ==> forall j :: 0 <= j < r ==> users[j].email != email
    ensures r == -1 <==> !HasEmail(users, email)
  {
    if users == [] then -1
    else if users[0].email == email then 0
    else
      var k := EmailIndex(users[1..], email);
      assert HasEmail(users, email) ==> HasEmail(users[1..], email) by {
        if HasEmail(users, email) {
          var i :| 0 <= i < |users| && users[i].email == email;
          assert users[1..][i - 1].email == email;
        }
      }
      if k == -1 then -1 else k + 1
  }

  /**
   * The record `updateUser` writes:
   * `{ ...existing, ...updates, username: updates.username ?? existing.username, ... }`.
   * The update's fields override; username, email and password fall back to the
   * existing values when the update leaves them out.
   */
  function UpdatedUser(existing: UserRecord, updates: UserPatch): (r: UserRecord)
    ensures r.username == Override(existing.username, updates.username)
    ensures r.email == Override(existing.email, updates.email)
    ensures r.password == OverrideOptional(existing.password, updates.password)
    ensures r == Spread(existing, updates)
  {
    var spread := Spread(existing, updates);
    spread.(
      username := Override(existing.username, updates.username),
      email := Override(existing.email, updates.email),
      password := OverrideOptional(existing.password, updates.password))
  }

  class UserList {
    /** The `users.bin` store, loaded with `autoSave: true`. */
    const store: TauriStore.Store<StoredValue>

    /** `useUserStore()` */
    constructor Load(file: map<string, StoredValue>)
      ensures fresh(store) && Valid()
      ensures store.entries == file && store.persisted == file
    {
      store := new TauriStore.Store.Load(file, true);
    }

    /** The store was loaded with `autoSave: true`. */
    predicate Valid() {
      store.autoSave
    }

    /** `getUsers()`: the stored array, or `[]` when it is missing, not an array, or the read fails. */
    method GetUsers(io: TauriStore.ReadIo) returns (users: seq<UserRecord>)
      ensures io.ReadFails? ==> users == []
      ensures io.ReadSucceeds? && UsersKey in store.entries && store.entries[UsersKey].UserList? ==>
        users == store.entries[UsersKey].users
      ensures io.ReadSucceeds? && (UsersKey !in store.entries || store.entries[UsersKey].UserText?) ==>
        users == []
    {
      var v := store.Get(UsersKey, io);
      users := UsersOf(v);
    }

    /** `findUser(email, password)`: the first user whose email and password both match, else null. */
    method FindUser(email: string, password: string, io: TauriStore.ReadIo) returns (r: Option<UserRecord>)
      ensures r.Some? ==> exists i :: 0 <= i < |ListRead(store.entries, io)| && ListRead(store.entries, io)[i] == r.value
      ensures r.Some? ==> Matches(r.value, email, password)
      ensures r.None? <==> forall u :: u in ListRead(store.entries, io) ==> !Matches(u, email, password)
      ensures var users := ListRead(store.entries, io);
        var i := CredentialsIndex(users, email, password);
        r == if i == -1 then None else Some(users[i])
    {
      var users := GetUsers(io);
      assert users == ListRead(store.entries, io);
      var i := CredentialsIndex(users, email, password);
      r := if i == -1 then None else Some(users[i]);
    }

    /**
     * `addUser(user)`: rejects with 'User already exists', writing nothing, when
     * some listed user has the same email; otherwise stores the list with the
     * user appended. A failed read is seen as an empty list, so the stored
     * list is then replaced by `[user]`.
     */
    method AddUser(user: UserRecord, readIo: TauriStore.ReadIo, writeIo: TauriStore.WriteIo) returns (r: Outcome)
      requires Valid()
      modifies store
      ensures var users := ListRead(old(store.entries), readIo);
        HasEmail(users, user.email) ==>
          r == Rejected(Error(UserExists)) && store.entries == old(store.entries) && store.persisted == old(store.persisted)
      ensures var users := ListRead(old(store.entries), readIo);
        !HasEmail(users, user.email) ==>
          && r == TauriStore.MutationOutcome(true, writeIo)
          && store.entries == (if writeIo.WriteFails? then old(store.entries) else old(store.entries)[UsersKey := UserList(users + [user])])
          && store.persisted == (if writeIo.WriteSucceeds? then store.entries else old(store.persisted))
    {
      var users := GetUsers(readIo);
      if HasEmail(users, user.email) {
        return Rejected(Error(UserExists));
      }
      users := users + [user];
      r := store.Set(UsersKey, UserList(users), writeIo);
    }

    /**
     * `updateUser(email, updates)`: rejects with 'User not found', writing nothing,
     * when no listed user has the email; otherwise replaces the first such user
     * by the updated record and stores the list. The new email is not checked
     * for uniqueness.
     */
    method UpdateUser(email: string, updates: UserPatch, readIo: TauriStore.ReadIo, writeIo: TauriStore.WriteIo)
      returns (r: Outcome)
      requires Valid()
      modifies store
      ensures var users := ListRead(old(store.entries), readIo);
        !HasEmail(users, email) ==>
          r == Rejected(Error(UserNotFound)) && store.entries == old(store.entries) && store.persisted == old(store.persisted)
      ensures var users := ListRead(old(store.entries), readIo);
        HasEmail(users, email) ==>
          var i := EmailIndex(users, email);
          && r == TauriStore.MutationOutcome(true, writeIo)
          && store.entries == (if writeIo.WriteFails? then old(store.entries)
                               else old(store.entries)[UsersKey := UserList(users[i := UpdatedUser(users[i], updates)])])
          && store.persisted == (if writeIo.WriteSucceeds? then store.entries else old(store.persisted))
    {
      var users := GetUsers(readIo);
      var index := EmailIndex(users, email);
      if index == -1 {
        return Rejected(Error(UserNotFound));
      }
      // The `!existingUser` test that follows in the source cannot fail: the index is in range.
      var updatedUser := UpdatedUser(users[index], updates);
      users := users[index := updatedUser];
      r := store.Set(UsersKey, UserList(users), writeIo);
    }
  }

  /** Appending a user with a fresh email keeps emails unique. */
  lemma AddKeepsEmailsUnique(users: seq<UserRecord>, user: UserRecord)
    requires UniqueEmails(users)
    requires !HasEmail(users, user.email)
    ensures UniqueEmails(users + [user])
  {
    forall i, j | 0 <= i < j < |users| + 1 ensures (users + [user])[i].email != (users + [user])[j].email {
      if j == |users| {
        assert users[i].email != user.email;
      }
    }
  }

  /** `updateUser` replaces one entry: the length and every other entry stay as they were. */
  lemma UpdateTouchesOneEntry(users: seq<UserRecord>, email: string, updates: UserPatch)
    requires HasEmail(users, email)
    ensures var i := EmailIndex(users, email);
      var updated := users[i := UpdatedUser(users[i], updates)];
      && |updated| == |users|
      && (forall j :: 0 <= j < |users| && j != i ==> updated[j] == users[j])
      && updated[i] == Spread(users[i], updates)
  {
  }

  /** Because the new email is not re-checked, `updateUser` can leave two users with one email. */
  lemma UpdateCanDuplicateEmails()
    ensures var a := UserRecord("a", "a@x", Some("p"), None, None, None, None);
      var b := UserRecord("b", "b@x", Some("q"), None, None, None, None);
      var users := [a, b];
      var change := NoChanges.(email := Some("b@x"));
      var i := EmailIndex(users, "a@x");
      && UniqueEmails(users)
      && !UniqueEmails(users[i := UpdatedUser(users[i], change)])
  {
    var a := UserRecord("a", "a@x", Some("p"), None, None, None, None);
    var b := UserRecord("b", "b@x", Some("q"), None, None, None, None);
    assert EmailIndex([a, b], "a@x") == 0;
    var updated := [a, b][0 := UpdatedUser(a, NoChanges.(email := Some("b@x")))];
    assert updated[0].email == updated[1].email;
  }
}
