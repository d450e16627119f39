/**
 * `useGitHubApi`: requests to the GitHub REST API for a repository's
 * metadata, a directory listing and one file's content. Repository names
 * lose a trailing `.git`; a 404 is reported as "not found" before any other
 * status is looked at; other failures carry GitHub's `message` or a fallback.
 */
module GitHubApi {
  import opened Js
  import opened Http

  const BaseUrl := "https://api.github.com"
  const AcceptV3 := "application/vnd.github.v3+json"
  const GitSuffix := ".git"
  const Base64 := "base64"

  /** The request headers: `Accept` always, `Authorization` when a token is known. */
  datatype Headers = Headers(accept: string, authorization: Option<string>)

  /** A JSON object as GitHub sends it, with the fields the composable reads. */
  datatype GhObject = GhObject(
    message: Option<string>, encoding: Option<string>, content: Option<string>, fields: map<string, string>)

  /** A parsed response body: an array of objects, or one object. */
  datatype Body = Array(items: seq<GhObject>) | Object(obj: GhObject)

  /**
   * `getHeaders()`: starts from `{ Accept }` and adds `Authorization`
   * from the OAuth token when it is truthy, else from the configured token
   * when that is truthy.
   */
  method GetHeaders(accessToken: Option<string>, configToken: Option<string>) returns (h: Headers)
    ensures h.accept == AcceptV3
    ensures IsTruthy(accessToken) ==> h.authorization == Some("token " + accessToken.value)
    ensures !IsTruthy(accessToken) && IsTruthy(configToken) ==> h.authorization == Some("token " + configToken.value)
    ensures h.authorization.None? <==> !IsTruthy(accessToken) && !IsTruthy(configToken)
  {
    h := Headers(AcceptV3, None);
    if IsTruthy(accessToken) {
      h := h.(authorization := Some("token " + accessToken.value));
    } else if IsTruthy(configToken) {
      h := h.(authorization := Some("token " + configToken.value));
    }
  }

  /** `repo.replace(/\.git$/, "")`: drops one `.git` at the very end, if there is one. */
  function CleanName(repo: string): (r: string)
    ensures EndsWith(repo, GitSuffix) ==> r + GitSuffix == repo
    ensures !EndsWith(repo, GitSuffix) ==> r == repo
  {
    if EndsWith(repo, GitSuffix) then repo[..|repo| - |GitSuffix|] else repo
  }

  /** A name with `.git` appended cleans back to the name, even when the name itself ends in `.git`. */
  lemma {:induction false} CleanNameOfSuffixed(name: string)
    ensures CleanName(name + GitSuffix) == name
  {
    var s := name + GitSuffix;
    assert s[|s| - |GitSuffix|..] == GitSuffix;
    assert s[..|s| - |GitSuffix|] == name;
  }

  /** Exactly one suffix goes: `a.git.git` becomes `a.git`. */
  lemma CleanNameStripsOnlyOne()
    ensures CleanName("a.git.git") == "a.git"
  {
    CleanNameOfSuffixed("a.git");
  }

  /** `${baseUrl}/repos/${owner}/${cleanRepoName}` */
  function RepoUrl(owner: string, repo: string): (u: string)
    ensures u == BaseUrl + "/repos/" + owner + "/" + CleanName(repo)
  {
    BaseUrl + "/repos/" + owner + "/" + CleanName(repo)
  }

  /** The listing URL: `/contents/<path>` for a non-empty path, `/contents` for the root. */
  function ContentsUrl(owner: string, repo: string, path: string): (u: string)
    ensures path != "" ==> EndsWith(u, "/contents/" + path) && u == RepoUrl(owner, repo) + "/contents/" + path
    ensures path == "" ==> EndsWith(u, "/contents") && u == RepoUrl(owner, repo) + "/contents"
  {
    var u := if path != "" then RepoUrl(owner, repo) + "/contents/" + path else RepoUrl(owner, repo) + "/contents";
    assert path != "" ==> u[|u| - |"/contents/" + path|..] == "/contents/" + path;
    assert path == "" ==> u[|u| - |"/contents"|..] == "/contents";
    u
  }

  /** The `message` field of a parsed error body; an array has none. */
  function MessageField(b: Body): Option<string> {
    if b.Object? then b.obj.message else None
  }

  /**
   * The checks every request makes on its response, in order: a 404 throws
   * `notFound`; another non-ok status throws GitHub's `message`, or `fallback`
   * when it is empty or missing, or the body's parse error; an ok status
   * yields the parsed body or its parse error. A network failure is rethrown.
   */
  function Checked(f: Fetch<Body>, notFound: string, fallback: string): (r: Result<Body, Exn>)
    ensures f.NetworkFailure? ==> r == Failure(f.reason)
    ensures f.Responded? && f.response.status == 404 ==> r == Failure(Error(notFound))
    ensures f.Responded? && f.response.status != 404 && !Ok(f.response.status) ==>
      r == match f.response.json
           case Failure(e) => Failure(e)
           case Success(b) => Failure(Error(OrElse(MessageField(b), Some(fallback)).value))
    ensures Succeeded(f) ==> r == f.response.json
  {
    match f
    case NetworkFailure(e) => Failure(e)
    case Responded(resp) =>
      if resp.status == 404 then Failure(Error(notFound))
      else if !Ok(resp.status) then
        match resp.json
        case Failure(e) => Failure(e)
        case Success(b) => Failure(Error(OrElse(MessageField(b), Some(fallback)).value))
      else resp.json
  }

  function RepoNotFound(owner: string, repo: string): string {
    "Repository \"" + owner + "/" + CleanName(repo) + "\" not found. Please verify the repository name and try again."
  }

  function PathNotFound(owner: string, repo: string): string {
    "Path not found in repository \"" + owner + "/" + CleanName(repo) + "\". Please verify the path and try again."
  }

  function FileNotFound(owner: string, repo: string): string {
    "File not found in repository \"" + owner + "/" + CleanName(repo) + "\". Please verify the file path and try again."
  }

  /** `fetchRepoInfo(owner, repo)`: the metadata fetched from the repository URL, as received. */
  function FetchRepoInfo(owner: string, repo: string, fetch: string -> Fetch<Body>): (r: Result<Body, Exn>)
    ensures var f := fetch(RepoUrl(owner, repo));
      f.Responded? && f.response.status == 404 ==> r == Failure(Error(RepoNotFound(owner, repo)))
    ensures var f := fetch(RepoUrl(owner, repo));
      Succeeded(f) ==> r == f.response.json
    ensures var f := fetch(RepoUrl(owner, repo));
      f.Responded? && f.response.status != 404 && !Ok(f.response.status) && f.response.json.Success? ==>
        r.Failure? && r.error.Error? && r.error.message != ""
  {
    Checked(fetch(RepoUrl(owner, repo)), RepoNotFound(owner, repo), "Failed to fetch repository info")
  }

  /** `Array.isArray(data) ? data : [data]` */
  function AsList(b: Body): (items: seq<GhObject>)
    ensures b.Array? ==> items == b.items
    ensures b.Object? ==> items == [b.obj]
  {
    match b
    case Array(items) => items
    case Object(o) => [o]
  }

  /**
   * `fetchRepoContents(owner, repo, path = "")`: the listing fetched from the
   * contents URL of `path`, a single file wrapped as a one-element list.
   */
  function FetchRepoContents(owner: string, repo: string, fetch: string -> Fetch<Body>, path: string := ""): (r: Result<seq<GhObject>, Exn>)
    ensures var f := fetch(ContentsUrl(owner, repo, path));
      f.Responded? && f.response.status == 404 ==> r == Failure(Error(PathNotFound(owner, repo)))
    ensures var f := fetch(ContentsUrl(owner, repo, path));
      Succeeded(f) && f.response.json.Success? && f.response.json.value.Array? ==> r == Success(f.response.json.value.items)
    ensures var f := fetch(ContentsUrl(owner, repo, path));
      Succeeded(f) && f.response.json.Success? && f.response.json.value.Object? ==> r == Success([f.response.json.value.obj])
    ensures var f := fetch(ContentsUrl(owner, repo, path));
      r.Success? ==> Succeeded(f) && f.response.json.Success? && |r.value| >= (if f.response.json.value.Object? then 1 else 0)
  {
    match Checked(fetch(ContentsUrl(owner, repo, path)), PathNotFound(owner, repo), "Failed to fetch repository contents")
    case Failure(e) => Failure(e)
    case Success(b) => Success(AsList(b))
  }

  /** The file URL: always `/contents/<path>`, even for an empty path. */
  function FileUrl(owner: string, repo: string, path: string): (u: string)
    ensures EndsWith(u, "/contents/" + path)
    ensures path != "" ==> u == ContentsUrl(owner, repo, path)
  {
    var u := RepoUrl(owner, repo) + "/contents/" + path;
    assert u[|u| - |"/contents/" + path|..] == "/contents/" + path;
    u
  }

  /**
   * `fetchFileContent(owner, repo, path)`: `content` decoded with `atob` when
   * `encoding` is "base64", returned as is otherwise. `atob` stands for the
   * browser's decoder, which throws on malformed input; a missing `content`
   * reaches it as the string "undefined".
   */
  function FetchFileContent(owner: string, repo: string, path: string, fetch: string -> Fetch<Body>,
                            atob: string -> Result<string, Exn>): (r: Result<Option<string>, Exn>)
    ensures var f := fetch(FileUrl(owner, repo, path));
      f.Responded? && f.response.status == 404 ==> r == Failure(Error(FileNotFound(owner, repo)))
    ensures var f := fetch(FileUrl(owner, repo, path));
      Succeeded(f) && f.response.json.Success? ==>
      var b := f.response.json.value;
      && (b.Object? && b.obj.encoding == Some(Base64) ==>
            r == match atob(if b.obj.content.Some? then b.obj.content.value else "undefined")
                 case Success(text) => Success(Some(text))
                 case Failure(e) => Failure(e))
      && (b.Object? && b.obj.encoding != Some(Base64) ==> r == Success(b.obj.content))
      && (b.Array? ==> r == Success(None))
  {
    match Checked(fetch(FileUrl(owner, repo, path)), FileNotFound(owner, repo), "Failed to fetch file content")
    case Failure(e) => Failure(e)
    case Success(b) =>
      if b.Object? && b.obj.encoding == Some(Base64) then
        match atob(if b.obj.content.Some? then b.obj.content.value else "undefined")
        case Success(text) => Success(Some(text))
        case Failure(e) => Failure(e)
      else if b.Object? then Success(b.obj.content)
      else Success(None)
  }

  /** The 404 mapping wins over whatever the body holds, for all three requests. */
  lemma NotFoundIgnoresBody(owner: string, repo: string, path: string, text: string,
                            j1: Result<Body, Exn>, j2: Result<Body, Exn>, atob: string -> Result<string, Exn>)
    ensures var f1 := (u: string) => Responded(Response(404, text, j1));
      var f2 := (u: string) => Responded(Response(404, text, j2));
      && FetchRepoInfo(owner, repo, f1) == FetchRepoInfo(owner, repo, f2)
      && FetchRepoContents(owner, repo, f1, path) == FetchRepoContents(owner, repo, f2, path)
      && FetchFileContent(owner, repo, path, f1, atob) == FetchFileContent(owner, repo, path, f2, atob)
  {
  }
}
