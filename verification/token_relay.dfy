/**
 * The server route `POST /api/auth/github`: reads `{ code }` from the request,
 * exchanges it at GitHub's `login/oauth/access_token` endpoint and answers
 * `{ access_token }`, or fails with an HTTP error whose status is always 500.
 */
module TokenRelay {
  import opened Js
  import opened Http

  /** GitHub's token endpoint reply: the token, or an `error` with an optional description. */
  datatype GitHubTokenResponse = GitHubTokenResponse(
    accessToken: Option<string>, error: Option<string>, errorDescription: Option<string>)

  /** The route's success body: `{ access_token }` and nothing else. */
  datatype TokenReply = TokenReply(accessToken: Option<string>)

  /** `createError({ statusCode, message })` */
  datatype HttpError = HttpError(statusCode: int, message: string)

  const NoCode := "No code provided"
  const ExchangeFailed := "Failed to exchange code for token"
  const AuthFailed := "Failed to authenticate with GitHub"

  /** Every error leaves through the `catch`: status 500, message `error.message || fallback`. */
  function Fail(e: Exn): (r: Result<TokenReply, HttpError>)
    ensures r.Failure? && r.error.statusCode == 500
    ensures r.error.message == MessageOr(e, AuthFailed)
  {
    Failure(HttpError(500, MessageOr(e, AuthFailed)))
  }

  /** The code is sent upstream only when the request body held a truthy one. */
  predicate CallsUpstream(request: Result<Option<string>, Exn>) {
    request.Success? && IsTruthy(request.value)
  }

  /**
   * The handler. `request` is what reading `{ code }` from the body gave (a
   * failure when the body cannot be read); `upstream` is the token endpoint's
   * answer, consulted only when `CallsUpstream(request)`.
   */
  function Relay(request: Result<Option<string>, Exn>, upstream: Fetch<GitHubTokenResponse>): (r: Result<TokenReply, HttpError>)
    ensures request.Failure? ==> r == Fail(request.error)
    ensures request.Success? && !IsTruthy(request.value) ==> r == Failure(HttpError(500, NoCode))
    ensures CallsUpstream(request) && upstream.NetworkFailure? ==> r == Fail(upstream.reason)
    ensures CallsUpstream(request) && upstream.Responded? && !Ok(upstream.response.status) ==>
      r == Failure(HttpError(500, ExchangeFailed))
    ensures CallsUpstream(request) && Succeeded(upstream) && upstream.response.json.Failure? ==>
      r == Fail(upstream.response.json.error)
    ensures CallsUpstream(request) && Succeeded(upstream) && upstream.response.json.Success? ==>
      var data := upstream.response.json.value;
      && (IsTruthy(data.error) ==>
            r == Failure(HttpError(500, if IsTruthy(data.errorDescription) then data.errorDescription.value else data.error.value)))
      && (!IsTruthy(data.error) ==> r == Success(TokenReply(data.accessToken)))
  {
    match request
    case Failure(e) => Fail(e)
    case Success(code) =>
      if !IsTruthy(code) then Fail(Error(NoCode))
      else match upstream
        case NetworkFailure(e) => Fail(e)
        case Responded(resp) =>
          if !Ok(resp.status) then Fail(Error(ExchangeFailed))
          else match resp.json
            case Failure(e) => Fail(e)
            case Success(data) =>
              if IsTruthy(data.error) then Fail(Error(OrElse(data.errorDescription, data.error).value))
              else Success(TokenReply(data.accessToken))
  }

  /** Every failure is reported as a 500 with a non-empty message. */
  lemma FailuresAre500WithMessage(request: Result<Option<string>, Exn>, upstream: Fetch<GitHubTokenResponse>)
    ensures var r := Relay(request, upstream);
      r.Failure? ==> r.error.statusCode == 500 && r.error.message != ""
  {
  }

  /** The route answers with a token exactly when it had a code and GitHub issued a reply without `error`. */
  lemma SucceedsExactlyWhen(request: Result<Option<string>, Exn>, upstream: Fetch<GitHubTokenResponse>)
    ensures Relay(request, upstream).Success? <==>
      && CallsUpstream(request) && Succeeded(upstream)
      && upstream.response.json.Success? && !IsTruthy(upstream.response.json.value.error)
  {
  }
}
