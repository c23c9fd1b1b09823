/** The README endpoint (`POST` of the github/readme route): a chain of early
    returns over the session token, the request body and the upstream
    status. The session lookup, the upstream `fetch` and the base64 decoding
    are inputs: the token is a parameter, the other two are oracle
    parameters. */
module ReadmeRoute {
  import opened Js

  const UnauthorizedError: string := "Unauthorized"
  const MissingFieldsError: string := "Owner and repo are required"
  const FetchError: string := "Failed to fetch README"

  const ApiRepos: string := "https://api.github.com/repos/"
  const ReadmeSuffix: string := "/readme"
  const UserAgent: string := "GitHub-Portfolio-App"
  const AcceptedMediaType: string := "application/vnd.github.v3+json"

  /** The outcome of `await request.json()` followed by destructuring
      `{ owner, repo }`: the body may not parse, may be JSON `null` (so the
      destructuring throws), or yields the two properties. */
  datatype RequestBody = Unreadable | NullBody | Body(owner: Option<string>, repo: Option<string>)

  datatype FetchRequest = FetchRequest(url: string, headers: seq<(string, string)>)

  /** The parsed JSON of a successful upstream reply: the base64 `content`
      and the `download_url`. */
  datatype ReadmeData = ReadmeData(content: Option<string>, downloadUrl: Option<string>)

  /** What the upstream `fetch` gives: a thrown network error, or a response
      whose body parses as README data (`Some`) or not (`None`). */
  datatype Upstream = NetworkError | HttpResponse(status: int, json: Option<ReadmeData>)

  /** The JSON reply. `NoReadme` is `{ content: null, hasReadme: false }` and
      `Found` is `{ content, hasReadme: true, downloadUrl }`, both HTTP 200. */
  datatype Response =
    | Error(status: nat, error: string)
    | NoReadme
    | Found(content: string, downloadUrl: Option<string>)

  /** `Response.ok`: a status in the 2xx range. */
  predicate Ok(status: int)
  {
    200 <= status <= 299
  }

  /** The two required properties are present and truthy. */
  predicate Complete(body: RequestBody)
  {
    body.Body? && Truthy(body.owner) && Truthy(body.repo)
  }

  /** The contents API address of the repository's README: the API prefix,
      then `owner/repo`, then the `/readme` suffix. */
  function ReadmeUrl(owner: string, repo: string): (r: string)
    ensures StartsWith(r, ApiRepos) && EndsWith(r, ReadmeSuffix)
    ensures |ApiRepos| + |ReadmeSuffix| <= |r| && r[|ApiRepos|..|r| - |ReadmeSuffix|] == owner + "/" + repo
  {
    var path := owner + "/" + repo;
    Framed(ApiRepos, path, ReadmeSuffix);
    assert (ApiRepos + path + ReadmeSuffix)[|ApiRepos|..|ApiRepos| + |path|] == path;
    ApiRepos + path + ReadmeSuffix
  }

  /** The upstream request: the README URL of the repository, with the
      session token as bearer credential. */
  function FetchFor(token: string, owner: string, repo: string): (q: FetchRequest)
    ensures q.url == ReadmeUrl(owner, repo)
    ensures |q.headers| == 3
    ensures ("Authorization", "Bearer " + token) in q.headers
    ensures ("User-Agent", UserAgent) in q.headers
    ensures ("Accept", AcceptedMediaType) in q.headers
  {
    FetchRequest(
      ReadmeUrl(owner, repo),
      [("Authorization", "Bearer " + token), ("User-Agent", UserAgent), ("Accept", AcceptedMediaType)])
  }

  /** What the upstream answers for an authorised, complete request. */
  function UpstreamFor(token: Option<string>, body: RequestBody, fetch: FetchRequest -> Upstream): Upstream
    requires Truthy(token) && Complete(body)
  {
    fetch(FetchFor(token.value, body.owner.value, body.repo.value))
  }

  /** The handler. No token: 401, before the body is read. An unreadable
      body: 500. A falsy `owner` or `repo`: 400, before any upstream call.
      Upstream 404: a successful "no README" reply. Any other non-2xx status,
      a network error, an unparseable reply or a reply without `content`:
      500. A 2xx reply: the decoded content with its download URL. */
  function Post(token: Option<string>, body: RequestBody, fetch: FetchRequest -> Upstream, decode: string -> string): (r: Response)
    ensures r == Error(401, UnauthorizedError) <==> !Truthy(token)
    ensures Truthy(token) && !body.Body? ==> r == Error(500, FetchError)
    ensures r == Error(400, MissingFieldsError) <==> Truthy(token) && body.Body? && !Complete(body)
    ensures Truthy(token) && Complete(body) && r.Error? ==> r == Error(500, FetchError)
    ensures r == NoReadme <==>
      Truthy(token) && Complete(body)
      && UpstreamFor(token, body, fetch).HttpResponse? && UpstreamFor(token, body, fetch).status == 404
    ensures r.Found? <==>
      Truthy(token) && Complete(body)
      && var u := UpstreamFor(token, body, fetch);
      u.HttpResponse? && Ok(u.status) && u.json.Some? && u.json.value.content.Some?
    ensures r.Found? ==>
      var data := UpstreamFor(token, body, fetch).json.value;
      r.content == decode(data.content.value) && r.downloadUrl == data.downloadUrl
    ensures r.Error? ==>
      || r == Error(401, UnauthorizedError)
      || r == Error(400, MissingFieldsError)
      || r == Error(500, FetchError)
  {
    if !Truthy(token) then Error(401, UnauthorizedError)
    else
      match body
      case Unreadable => Error(500, FetchError)
      case NullBody => Error(500, FetchError)
      case Body(owner, repo) =>
        if !Truthy(owner) || !Truthy(repo) then Error(400, MissingFieldsError)
        else
          match fetch(FetchFor(token.value, owner.value, repo.value))
          case NetworkError => Error(500, FetchError)
          case HttpResponse(status, json) =>
            if !Ok(status) then
              if status == 404 then NoReadme else Error(500, FetchError)
            else if json.None? || json.value.content.None? then Error(500, FetchError)
            else Found(decode(json.value.content.value), json.value.downloadUrl)
  }

  /** Without a token nothing else is looked at: neither the body nor the upstream. */
  lemma NoTokenReadsNothing(
    token: Option<string>,
    body1: RequestBody, fetch1: FetchRequest -> Upstream, decode1: string -> string,
    body2: RequestBody, fetch2: FetchRequest -> Upstream, decode2: string -> string)
    requires !Truthy(token)
    ensures Post(token, body1, fetch1, decode1) == Post(token, body2, fetch2, decode2)
  {
  }

  /** A request without `owner` or `repo` is refused before any upstream call. */
  lemma MissingFieldsNeverFetch(
    token: Option<string>, body: RequestBody,
    fetch1: FetchRequest -> Upstream, fetch2: FetchRequest -> Upstream, decode: string -> string)
    requires Truthy(token) && body.Body? && !Complete(body)
    ensures Post(token, body, fetch1, decode) == Post(token, body, fetch2, decode)
  {
  }

  /** The reply depends on the upstream only through its answer to the one
      README request. */
  lemma OnlyTheReadmeRequestMatters(
    token: Option<string>, body: RequestBody,
    fetch1: FetchRequest -> Upstream, fetch2: FetchRequest -> Upstream, decode: string -> string)
    requires Truthy(token) && Complete(body)
    requires UpstreamFor(token, body, fetch1) == UpstreamFor(token, body, fetch2)
    ensures Post(token, body, fetch1, decode) == Post(token, body, fetch2, decode)
  {
  }

  /** The position of the first `/` in `s`, if any. */
  function FirstSlash(s: string): (r: Option<nat>)
    ensures r.Some? ==> r.value < |s| && s[r.value] == '/' && '/' !in s[..r.value]
    ensures r.None? ==> '/' !in s
  {
    if s == [] then None
    else if s[0] == '/' then Some(0)
    else
      var rest := FirstSlash(s[1..]);
      if rest.None? then None else Some(rest.value + 1)
  }

  /** Reads the owner and repository back from a README URL: the owner runs
      up to the first `/` after the API prefix, the repository up to the
      `/readme` suffix. */
  function ParseReadmeUrl(url: string): Option<(string, string)>
  {
    if |url| >= |ApiRepos| + |ReadmeSuffix|
       && url[..|ApiRepos|] == ApiRepos
       && url[|url| - |ReadmeSuffix|..] == ReadmeSuffix
    then
      var path := url[|ApiRepos|..|url| - |ReadmeSuffix|];
      var slash := FirstSlash(path);
      if slash.None? then None else Some((path[..slash.value], path[slash.value + 1..]))
    else None
  }

  lemma {:induction false} FirstSlashAfter(owner: string, rest: string)
    requires '/' !in owner
    ensures FirstSlash(owner + "/" + rest) == Some(|owner|)
    decreases |owner|
  {
    var s := owner + "/" + rest;
    if owner != [] {
      assert s[1..] == owner[1..] + "/" + rest;
      FirstSlashAfter(owner[1..], rest);
    }
  }

  /** The upstream path is exactly `repos/{owner}/{repo}/readme`: a slash-free
      owner and any repository name are recovered from the URL. */
  lemma ReadmeUrlRoundTrip(owner: string, repo: string)
    requires '/' !in owner
    ensures ParseReadmeUrl(ReadmeUrl(owner, repo)) == Some((owner, repo))
  {
    var url := ReadmeUrl(owner, repo);
    var path := owner + "/" + repo;
    assert url == ApiRepos + path + ReadmeSuffix;
    assert url[|ApiRepos|..|url| - |ReadmeSuffix|] == path;
    FirstSlashAfter(owner, repo);
    assert path[..|owner|] == owner;
    assert path[|owner| + 1..] == repo;
  }

  /** Distinct repositories (with slash-free owners) are fetched at distinct URLs. */
  lemma ReadmeUrlInjective(owner1: string, repo1: string, owner2: string, repo2: string)
    requires '/' !in owner1 && '/' !in owner2
    requires ReadmeUrl(owner1, repo1) == ReadmeUrl(owner2, repo2)
    ensures owner1 == owner2 && repo1 == repo2
  {
    ReadmeUrlRoundTrip(owner1, repo1);
    ReadmeUrlRoundTrip(owner2, repo2);
  }
}
