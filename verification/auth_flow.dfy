/**
 * `useAuth`: the GitHub OAuth sign-in. `login` opens the authorization popup
 * and listens for the `message` the callback page posts; `handleAuthCallback`
 * checks that message, exchanges its code for a token through the relay,
 * fetches the GitHub identity and either records the session (refs plus the
 * `gh_token` and `gh_user` keys) or forces a logout.
 *
 * Everything the flow does outside its own state is recorded, in order, in
 * `trace`: listener changes, requests, notifications, closing the popup and
 * navigation. Responses arrive as parameters.
 */
module AuthFlow {
  import opened Js
  import opened Users
  import opened Browser
  import opened Http
  import CurrentUser

  /** The GitHub identity `GET /user` returns, kept as received. */
  datatype GitHubUser = GitHubUser(login: string, id: int, name: Option<string>, avatarUrl: Option<string>)

  /** The relay's reply body: `{ access_token }`, where the token may be missing. */
  datatype TokenBody = TokenBody(accessToken: Option<string>)

  /** What the callback page posted: nothing (`null`), or an object with optional `error` and `code`. */
  datatype MessageData = NoData | Fields(error: Option<string>, code: Option<string>)

  /** A `message` event: its origin, its data, and whether `event.source` is a window that can be closed. */
  datatype MessageEvent = MessageEvent(origin: string, data: MessageData, hasSource: bool)

  /** Something the flow does outside its own state. */
  datatype Effect =
    | Listen                                   // addEventListener('message', handleAuthCallback)
    | Unlisten                                 // removeEventListener('message', handleAuthCallback)
    | ExchangeCode(code: string)               // POST /api/auth/github with { code }
    | FetchIdentity(authorization: string)     // GET https://api.github.com/user
    | FetchRepoPage(page: int, perPage: int, authorization: string)  // GET .../user/repos
    | Notify(notification: Notification)
    | ClosePopup                               // event.source.close()
    | Navigate(path: string)                   // router.push(path)

  const Dashboard := "/dashboard"
  const OAuthFailed := "Failed to authenticate with GitHub"
  const SignInSucceeded := "Successfully authenticated with GitHub"
  const TokenFailedPrefix := "Failed to get access token: "
  const IdentityFailedPrefix := "Failed to get user info: "
  const PopupBlocked := "Failed to open authentication window. Please check your popup blocker settings."
  const WindowClosed := "Authentication window was closed"
  const ReposFailed := "Failed to fetch GitHub repositories"
  /** The `TypeError` of reading `event.data.error` when the data is null. */
  const NoDataMessage := "Cannot read properties of null (reading 'error')"

  /** A token as a template literal or `setItem` writes it: a missing one becomes "undefined". */
  function TokenString(t: Option<string>): (s: string)
    ensures t.Some? ==> s == t.value
    ensures t.None? ==> s == "undefined"
  {
    if t.Some? then t.value else "undefined"
  }

  /** The header value `token ${t}`. */
  function Authorization(t: Option<string>): (s: string)
    ensures |s| >= 6 && s[..6] == "token "
    ensures s[6..] == TokenString(t)
  {
    "token " + TokenString(t)
  }

  /** The message passed every check and carries a code to exchange. */
  predicate Proceeds(event: MessageEvent, appOrigin: string) {
    && event.origin == appOrigin
    && event.data.Fields?
    && !IsTruthy(event.data.error)
    && IsTruthy(event.data.code)
  }

  /**
   * The network part of the callback's `try` block: the token and identity it
   * obtains, or the error it throws. Both responses must be ok and their
   * bodies must parse.
   */
  function SignIn(exchange: Fetch<TokenBody>, identity: Fetch<GitHubUser>): (r: Result<(Option<string>, GitHubUser), Exn>)
    ensures r.Success? <==>
      && Succeeded(exchange) && exchange.response.json.Success?
      && Succeeded(identity) && identity.response.json.Success?
    ensures r.Success? ==>
      r.value == (exchange.response.json.value.accessToken, identity.response.json.value)
    ensures exchange.NetworkFailure? ==> r == Failure(exchange.reason)
    ensures exchange.Responded? && !Ok(exchange.response.status) ==>
      r == Failure(Error(TokenFailedPrefix + exchange.response.statusText))
    ensures Succeeded(exchange) && exchange.response.json.Success? && identity.Responded? && !Ok(identity.response.status) ==>
      r == Failure(Error(IdentityFailedPrefix + identity.response.statusText))
  {
    match exchange
    case NetworkFailure(e) => Failure(e)
    case Responded(resp) =>
      if !Ok(resp.status) then Failure(Error(TokenFailedPrefix + resp.statusText))
      else match resp.json
        case Failure(e) => Failure(e)
        case Success(body) =>
          match identity
          case NetworkFailure(e) => Failure(e)
          case Responded(uresp) =>
            if !Ok(uresp.status) then Failure(Error(IdentityFailedPrefix + uresp.statusText))
            else match uresp.json
              case Failure(e) => Failure(e)
              case Success(u) => Success((body.accessToken, u))
  }

  /** The requests the `try` block sends: the exchange, then the identity fetch once a token body was read. */
  function Requests(code: string, exchange: Fetch<TokenBody>): (es: seq<Effect>)
    ensures |es| >= 1 && es[0] == ExchangeCode(code)
    ensures |es| == 2 <==> Succeeded(exchange) && exchange.response.json.Success?
    ensures |es| <= 2
    ensures |es| == 2 ==> es[1] == FetchIdentity(Authorization(exchange.response.json.value.accessToken))
  {
    if Succeeded(exchange) && exchange.response.json.Success? then
      [ExchangeCode(code), FetchIdentity(Authorization(exchange.response.json.value.accessToken))]
    else
      [ExchangeCode(code)]
  }

  /** `if (event.source && typeof event.source.close === 'function') event.source.close()` */
  function CloseIfSource(hasSource: bool): seq<Effect> {
    if hasSource then [ClosePopup] else []
  }

  /** What follows the requests: success notification, close, navigate; or error notification and close. */
  function Ending(res: Result<(Option<string>, GitHubUser), Exn>, hasSource: bool): (es: seq<Effect>)
    ensures |es| >= 1 && es[0].Notify?
    ensures res.Success? ==> es[0].notification == Notification("Success", SignInSucceeded) && es[|es| - 1] == Navigate(Dashboard)
    ensures res.Failure? ==> es[0].notification == Notification("Error", MessageOr(res.error, OAuthFailed))
    ensures res.Failure? ==> Navigate(Dashboard) !in es
    ensures (ClosePopup in es) <==> hasSource
    ensures forall i :: 1 <= i < |es| ==> !es[i].Notify?
  {
    if res.Success? then
      [Notify(SendNotification("Success", Some(SignInSucceeded)))] + CloseIfSource(hasSource) + [Navigate(Dashboard)]
    else
      [Notify(SendNotification("Error", Some(MessageOr(res.error, OAuthFailed))))] + CloseIfSource(hasSource)
  }

  /** `currentUser.value?.githubToken || accessToken.value` */
  function RepoToken(current: Option<UserRecord>, accessToken: Option<string>): (t: Option<string>)
    ensures current.Some? && IsTruthy(current.value.githubToken) ==> t == current.value.githubToken
    ensures !(current.Some? && IsTruthy(current.value.githubToken)) ==> t == accessToken
  {
    OrElse(if current.Some? then current.value.githubToken else None, accessToken)
  }

  class Auth {
    var isAuthenticated: bool
    var user: Option<GitHubUser>
    var accessToken: Option<string>
    /** Whether `handleAuthCallback` is registered for `message` events (registering twice is a no-op). */
    var listening: bool
    var trace: seq<Effect>
    /** `window.location.origin` */
    const appOrigin: string
    /** `localStorage['gh_token']` */
    const ghToken: StorageItem<string>
    /** `localStorage['gh_user']` */
    const ghUser: StorageItem<Text<GitHubUser>>
    /** The `useCurrentUser()` instance this composable holds. */
    const current: CurrentUser.Holder

    /**
     * A session is held exactly when there is a GitHub user, and then the
     * stored keys hold that token and that user.
     */
    predicate Valid()
      reads this, ghToken, ghUser
    {
      && (isAuthenticated <==> user.Some?)
      && (isAuthenticated ==>
            ghToken.item == Some(TokenString(accessToken)) && ghUser.item == Some(Stringify(user.value)))
    }

    /** The state `logout` leaves. */
    predicate LoggedOut()
      reads this, ghToken, ghUser
    {
      !isAuthenticated && user.None? && accessToken.None? && ghToken.item.None? && ghUser.item.None?
    }

    /** `useAuth()`: the refs start signed out; `Restore` is the on-mount check that follows. */
    constructor (appOrigin: string, ghToken: StorageItem<string>, ghUser: StorageItem<Text<GitHubUser>>,
                 current: CurrentUser.Holder)
      ensures !isAuthenticated && user.None? && accessToken.None? && !listening && trace == []
      ensures this.appOrigin == appOrigin && this.ghToken == ghToken && this.ghUser == ghUser && this.current == current
      ensures Valid()
    {
      isAuthenticated := false;
      user := None;
      accessToken := None;
      listening := false;
      trace := [];
      this.appOrigin := appOrigin;
      this.ghToken := ghToken;
      this.ghUser := ghUser;
      this.current := current;
    }

    /**
     * The on-mount check: with both `gh_token` and `gh_user` truthy, the token
     * is taken and the user parsed, and the session is marked authenticated.
     * The token is assigned before the parse, so a malformed `gh_user` leaves
     * the token set and makes `useAuth()` throw the parse error.
     */
    method Restore() returns (r: Outcome)
      modifies this
      ensures var t := ghToken.item; var u := ghUser.item;
        !(IsTruthy(t) && u.Some? && TextIsTruthy(u.value)) ==>
          r == Resolved && isAuthenticated == old(isAuthenticated) && user == old(user) && accessToken == old(accessToken)
      ensures var t := ghToken.item; var u := ghUser.item;
        IsTruthy(t) && u.Some? && u.value.Serialized? ==>
          r == Resolved && isAuthenticated && user == Some(u.value.value) && accessToken == t
      ensures var t := ghToken.item; var u := ghUser.item;
        IsTruthy(t) && u.Some? && u.value.Malformed? && TextIsTruthy(u.value) ==>
          r == Rejected(Error(SyntaxErrorMessage)) && accessToken == t
          && isAuthenticated == old(isAuthenticated) && user == old(user)
      ensures listening == old(listening) && trace == old(trace)
      ensures old(Valid()) ==> Valid()
    {
      r := Resolved;
      var token := ghToken.item;
      var storedUser := ghUser.item;
      if IsTruthy(token) && storedUser.Some? && TextIsTruthy(storedUser.value) {
        accessToken := token;
        match Parse(storedUser.value) {
          case Success(u) =>
            user := Some(u);
            isAuthenticated := true;
          case Failure(e) =>
            r := Rejected(e);
        }
      }
    }

    /** `logout()`: clears the three refs and both keys. */
    method Logout()
      modifies this, ghToken, ghUser
      ensures LoggedOut() && Valid()
      ensures listening == old(listening) && trace == old(trace)
    {
      isAuthenticated := false;
      user := None;
      accessToken := None;
      ghToken.RemoveItem();
      ghUser.RemoveItem();
    }

    /**
     * `handleAuthCallback(event)`. The listener is removed first, so a message
     * from a foreign origin also ends the wait for the real callback. Then:
     * a foreign origin returns; null data throws; an `error` field is
     * notified; a missing code returns; otherwise the code is exchanged and
     * the identity fetched. Success records the session, marks the local
     * user as connected to GitHub, notifies, closes the popup and goes to the
     * dashboard; any failure logs out (whatever session there was) and
     * notifies the error.
     */
    method HandleAuthCallback(event: MessageEvent, exchange: Fetch<TokenBody>, identity: Fetch<GitHubUser>)
      returns (r: Outcome)
      modifies this, ghToken, ghUser, current, current.stored
      ensures !listening
      ensures |trace| > |old(trace)| && trace[|old(trace)|] == Unlisten
      ensures r == if event.origin == appOrigin && event.data.NoData? then Rejected(Error(NoDataMessage)) else Resolved
      ensures !Proceeds(event, appOrigin) ==>
        && isAuthenticated == old(isAuthenticated) && user == old(user) && accessToken == old(accessToken)
        && unchanged(ghToken, ghUser, current, current.stored)
      ensures event.origin != appOrigin || event.data.NoData? || (event.data.Fields? && !IsTruthy(event.data.error) && !IsTruthy(event.data.code)) ==>
        trace == old(trace) + [Unlisten]
      ensures event.origin == appOrigin && event.data.Fields? && IsTruthy(event.data.error) ==>
        trace == old(trace) + [Unlisten, Notify(SendNotification("Error", event.data.error))]
      ensures Proceeds(event, appOrigin) ==>
        var res := SignIn(exchange, identity);
        trace == old(trace) + [Unlisten] + Requests(event.data.code.value, exchange) + Ending(res, event.hasSource)
      ensures Proceeds(event, appOrigin) && SignIn(exchange, identity).Success? ==>
        var (token, u) := SignIn(exchange, identity).value;
        && isAuthenticated && user == Some(u) && accessToken == token
        && ghToken.item == Some(TokenString(token)) && ghUser.item == Some(Stringify(u))
        && current.user == (if old(current.user).Some? then Some(CurrentUser.WithGithub(old(current.user).value, token)) else None)
        && (old(current.user).Some? ==> current.stored.item == Some(Stringify(current.user.value)))
        && (old(current.user).None? ==> current.stored.item == old(current.stored.item))
      ensures Proceeds(event, appOrigin) && SignIn(exchange, identity).Failure? ==>
        LoggedOut() && unchanged(current, current.stored)
      ensures old(Valid()) ==> Valid()
    {
      listening := false;
      trace := trace + [Unlisten];
      if event.origin != appOrigin {
        return Resolved;
      }
      if event.data.NoData? {
        return Rejected(Error(NoDataMessage));
      }
      if IsTruthy(event.data.error) {
        trace := trace + [Notify(SendNotification("Error", event.data.error))];
        return Resolved;
      }
      if !IsTruthy(event.data.code) {
        return Resolved;
      }
      r := Resolved;
      CompleteSignIn(event.data.code.value, event.hasSource, exchange, identity);
    }

    /**
     * A successful sign-in: the refs take the token and user, both keys store
     * them, and the local user, if any, is marked as connected to GitHub.
     */
    method RecordSession(token: Option<string>, u: GitHubUser)
      modifies this, ghToken, ghUser, current, current.stored
      ensures isAuthenticated && user == Some(u) && accessToken == token
      ensures ghToken.item == Some(TokenString(token)) && ghUser.item == Some(Stringify(u))
      ensures current.user == (if old(current.user).Some? then Some(CurrentUser.WithGithub(old(current.user).value, token)) else None)
      ensures old(current.user).Some? ==> current.stored.item == Some(Stringify(current.user.value))
      ensures old(current.user).None? ==> current.stored.item == old(current.stored.item)
      ensures trace == old(trace) && listening == old(listening)
      ensures Valid()
    {
      accessToken := token;
      user := Some(u);
      isAuthenticated := true;
      ghToken.SetItem(TokenString(token));
      ghUser.SetItem(Stringify(u));
      current.ConnectGithub(token);
    }

    /**
     * The `try` block of `handleAuthCallback` once a code is in hand, with its
     * `catch`: exchange and identity requests, then the session and the local
     * user's GitHub link on success, or a logout on any failure.
     */
    method CompleteSignIn(code: string, hasSource: bool, exchange: Fetch<TokenBody>, identity: Fetch<GitHubUser>)
      modifies this, ghToken, ghUser, current, current.stored
      ensures trace == old(trace) + Requests(code, exchange) + Ending(SignIn(exchange, identity), hasSource)
      ensures listening == old(listening)
      ensures SignIn(exchange, identity).Success? ==>
        var (token, u) := SignIn(exchange, identity).value;
        && isAuthenticated && user == Some(u) && accessToken == token
        && ghToken.item == Some(TokenString(token)) && ghUser.item == Some(Stringify(u))
        && current.user == (if old(current.user).Some? then Some(CurrentUser.WithGithub(old(current.user).value, token)) else None)
        && (old(current.user).Some? ==> current.stored.item == Some(Stringify(current.user.value)))
        && (old(current.user).None? ==> current.stored.item == old(current.stored.item))
      ensures SignIn(exchange, identity).Failure? ==> LoggedOut() && unchanged(current, current.stored)
      ensures Valid()
    {
      var res := SignIn(exchange, identity);
      trace := trace + Requests(code, exchange);
      if res.Success? {
        RecordSession(res.value.0, res.value.1);
      } else {
        Logout();
      }
      trace := trace + Ending(res, hasSource);
    }

    /**
     * `login()`. A blocked popup throws before any listener is registered.
     * Otherwise the listener is registered; at most one message reaches it,
     * since the handler removes the listener first; and the returned promise
     * has no resolve path: it rejects once the popup is closed (by the user,
     * or by the handler itself after a successful sign-in) or after five
     * minutes, removing the listener either way.
     */
    method Login(popupOpened: bool, arrival: Option<(MessageEvent, Fetch<TokenBody>, Fetch<GitHubUser>)>)
      returns (r: Outcome)
      modifies this, ghToken, ghUser, current, current.stored
      ensures !popupOpened ==> r == Rejected(Error(PopupBlocked))
      ensures !popupOpened ==>
        && listening == old(listening) && trace == old(trace)
        && isAuthenticated == old(isAuthenticated) && user == old(user) && accessToken == old(accessToken)
        && unchanged(ghToken, ghUser, current, current.stored)
      ensures popupOpened ==> r == Rejected(Error(WindowClosed)) && !listening
      ensures popupOpened ==> |trace| >= |old(trace)| + 2 && trace[|old(trace)|] == Listen && trace[|trace| - 1] == Unlisten
      ensures popupOpened && arrival.None? ==>
        && trace == old(trace) + [Listen, Unlisten]
        && isAuthenticated == old(isAuthenticated) && user == old(user) && accessToken == old(accessToken)
      ensures popupOpened && arrival.Some? && Proceeds(arrival.value.0, appOrigin) && SignIn(arrival.value.1, arrival.value.2).Success? ==>
        isAuthenticated
      ensures old(Valid()) ==> Valid()
    {
      if !popupOpened {
        return Rejected(Error(PopupBlocked));
      }
      listening := true;
      trace := trace + [Listen];
      if arrival.Some? {
        var (event, exchange, identity) := arrival.value;
        var _ := HandleAuthCallback(event, exchange, identity);
      }
      listening := false;
      trace := trace + [Unlisten];
      r := Rejected(Error(WindowClosed));
    }

    /**
     * `fetchRepos(page = 1, perPage = 10)`: with no usable token it returns `[]` without
     * a request; a failed or non-ok request, or a body that does not parse,
     * also gives `[]` after an error notification.
     */
    method FetchRepos<R>(response: Fetch<seq<R>>, page: int := 1, perPage: int := 10) returns (repos: seq<R>)
      modifies this
      ensures var t := RepoToken(current.user, accessToken);
        !IsTruthy(t) ==> repos == [] && trace == old(trace)
      ensures var t := RepoToken(current.user, accessToken);
        IsTruthy(t) && Succeeded(response) && response.response.json.Success? ==>
          repos == response.response.json.value
          && trace == old(trace) + [FetchRepoPage(page, perPage, Authorization(t))]
      ensures var t := RepoToken(current.user, accessToken);
        IsTruthy(t) && !(Succeeded(response) && response.response.json.Success?) ==>
          repos == []
          && trace == old(trace) + [FetchRepoPage(page, perPage, Authorization(t)), Notify(Notification("Error", ReposFailed))]
      ensures isAuthenticated == old(isAuthenticated) && user == old(user) && accessToken == old(accessToken)
      ensures listening == old(listening)
    {
      var token := RepoToken(current.user, accessToken);
      if !IsTruthy(token) {
        return [];
      }
      trace := trace + [FetchRepoPage(page, perPage, Authorization(token))];
      if Succeeded(response) && response.response.json.Success? {
        repos := response.response.json.value;
      } else {
        trace := trace + [Notify(SendNotification("Error", Some(ReposFailed)))];
        repos := [];
      }
    }
  }

  /**
   * A sign-in survives a reload: after `RecordSession`, a new `useAuth()` over
   * the same `gh_token` and `gh_user` keys restores that session on mount,
   * provided the stored token text is truthy. A missing token is stored as
   * the text "undefined", which restores as that token.
   */
  method RestoreAfterSignIn(a: Auth, token: Option<string>, u: GitHubUser) returns (b: Auth)
    modifies a, a.ghToken, a.ghUser, a.current, a.current.stored
    ensures fresh(b) && b.ghToken == a.ghToken && b.ghUser == a.ghUser
    ensures IsTruthy(Some(TokenString(token))) ==>
      b.isAuthenticated && b.user == Some(u) && b.accessToken == Some(TokenString(token)) && b.Valid()
    ensures token.Some? && token.value != "" ==> b.isAuthenticated && b.accessToken == token
    ensures token.None? ==> b.isAuthenticated && b.accessToken == Some("undefined")
    ensures token == Some("") ==> !b.isAuthenticated && b.user.None?
  {
    a.RecordSession(token, u);
    b := new Auth(a.appOrigin, a.ghToken, a.ghUser, a.current);
    var _ := b.Restore();
  }
}
