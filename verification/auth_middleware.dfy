/**
 * The named route middleware `auth`, run on navigations to the pages that
 * declare `middleware: 'auth'`: a signed-out visitor may only stay on `/`,
 * and a signed-in user is sent from the login and signup pages to the
 * dashboard.
 */
module AuthMiddleware {
  import opened Js
  import opened Users

  /** What the middleware returns: nothing (the navigation proceeds) or `navigateTo(path)`. */
  datatype Decision = Proceed | RedirectTo(path: string)

  const Home := "/"
  const Dashboard := "/dashboard"
  /** The `TypeError` of reading `.value` on `undefined`. */
  const UndefinedValue := "Cannot read properties of undefined (reading 'value')"

  /**
   * A property of the object `useCurrentUser()` returns, as a user ref: only
   * `user` is one; `loadUser`, `logout` and `connectGithub` are functions, and
   * any other name is missing.
   */
  function UserRefNamed(name: string, user: Option<UserRecord>): (ref: Option<Option<UserRecord>>)
    ensures ref.Some? <==> name == "user"
    ensures ref.Some? ==> ref.value == user
  {
    if name == "user" then Some(user) else None
  }

  /**
   * The guard as written: it destructures `currentUser`, which the composable
   * does not return, so reading `currentUser.value` throws before any path is
   * looked at.
   */
  function GuardAsWritten(user: Option<UserRecord>, path: string): (r: Result<Decision, Exn>)
    ensures r.Success? ==> r.value == Guard(user, path)
  {
    match UserRefNamed("currentUser", user)
    case None => Failure(Error(UndefinedValue))
    case Some(ref) => Success(Guard(ref, path))
  }

  /** Every navigation fails, whoever is signed in and wherever it goes. */
  lemma GuardAsWrittenAlwaysThrows(user: Option<UserRecord>, path: string)
    ensures GuardAsWritten(user, path) == Failure(Error(UndefinedValue))
  {
  }

  /** The decision on the signed-in user (the composable's `user` ref) and the target path. */
  function Guard(user: Option<UserRecord>, path: string): (d: Decision)
    ensures user.None? && path != Home ==> d == RedirectTo(Home)
    ensures user.Some? && (path == "/login" || path == "/signup") ==> d == RedirectTo(Dashboard)
    ensures d == Proceed <==> (user.None? && path == Home) || (user.Some? && path != "/login" && path != "/signup")
  {
    if user.None? && path != Home then RedirectTo(Home)
    else if user.Some? && (path == "/login" || path == "/signup") then RedirectTo(Dashboard)
    else Proceed
  }

  /** The guard reading the ref the composable does return. */
  function GuardCorrected(user: Option<UserRecord>, path: string): (r: Result<Decision, Exn>)
    ensures r == Success(Guard(user, path))
  {
    match UserRefNamed("user", user)
    case None => Failure(Error(UndefinedValue))
    case Some(ref) => Success(Guard(ref, path))
  }

  /** A redirect's target is let through, so the guard never redirects twice in a row. */
  lemma RedirectTargetProceeds(user: Option<UserRecord>, path: string)
    ensures Guard(user, path).RedirectTo? ==> Guard(user, Guard(user, path).path) == Proceed
  {
  }
}
