/**
 * The user record shared by the session holders and the `users.bin` store.
 * `User`, `UserState`, `CurrentUser` and `AuthUser` in the source all have a
 * required `username` and `email` and optional further fields; one record with
 * every optional field as an `Option` covers them all. `Partial<...>` updates
 * are `UserPatch`, where every field is optional.
 */
module Users {
  import opened Js

  datatype UserRecord = UserRecord(
    username: string,
    email: string,
    password: Option<string>,
    isGithubConnected: Option<bool>,
    githubToken: Option<string>,
    phone: Option<string>,
    address: Option<string>)

  datatype UserPatch = UserPatch(
    username: Option<string>,
    email: Option<string>,
    password: Option<string>,
    isGithubConnected: Option<bool>,
    githubToken: Option<string>,
    phone: Option<string>,
    address: Option<string>)

  /** The patch that sets nothing: `{}`. */
  const NoChanges := UserPatch(None, None, None, None, None, None, None)

  /** A required field of `{ ...u, ...patch }`: the patch's value when it has one. */
  function Override<T>(base: T, patch: Option<T>): T {
    if patch.Some? then patch.value else base
  }

  /** An optional field of `{ ...u, ...patch }`. */
  function OverrideOptional<T>(base: Option<T>, patch: Option<T>): Option<T> {
    if patch.Some? then patch else base
  }

  /**
   * `{ ...u, ...patch }`: every field the patch sets overrides the record's,
   * every other field keeps the record's value.
   */
  function Spread(u: UserRecord, patch: UserPatch): (r: UserRecord)
    ensures patch.username.Some? ==> r.username == patch.username.value
    ensures patch.username.None? ==> r.username == u.username
    ensures patch.email.Some? ==> r.email == patch.email.value
    ensures patch.email.None? ==> r.email == u.email
    ensures patch.password.Some? ==> r.password == patch.password
    ensures patch.password.None? ==> r.password == u.password
    ensures patch.isGithubConnected.Some? ==> r.isGithubConnected == patch.isGithubConnected
    ensures patch.isGithubConnected.None? ==> r.isGithubConnected == u.isGithubConnected
    ensures patch.githubToken.Some? ==> r.githubToken == patch.githubToken
    ensures patch.githubToken.None? ==> r.githubToken == u.githubToken
    ensures patch.phone.Some? ==> r.phone == patch.phone
    ensures patch.phone.None? ==> r.phone == u.phone
    ensures patch.address.Some? ==> r.address == patch.address
    ensures patch.address.None? ==> r.address == u.address
  {
    UserRecord(
      Override(u.username, patch.username),
      Override(u.email, patch.email),
      OverrideOptional(u.password, patch.password),
      OverrideOptional(u.isGithubConnected, patch.isGithubConnected),
      OverrideOptional(u.githubToken, patch.githubToken),
      OverrideOptional(u.phone, patch.phone),
      OverrideOptional(u.address, patch.address))
  }

  /** Spreading the empty patch copies the record. */
  lemma SpreadNoChanges(u: UserRecord)
    ensures Spread(u, NoChanges) == u
  {
  }

  /** Spreading the same patch twice is spreading it once. */
  lemma SpreadIdempotent(u: UserRecord, patch: UserPatch)
    ensures Spread(Spread(u, patch), patch) == Spread(u, patch)
  {
  }
}
