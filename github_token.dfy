/** GitHub App installation tokens: a JWT signed with the app's private key
    identifies the app, the installation for the repository is looked up
    (falling back to the app's first installation), an installation access
    token is requested, and the token is cached in memory until five minutes
    before it expires. The HTTP client, JSON encoding, base64url, RSA signing,
    date parsing and the clock are parameters. */
module GithubToken {

  import opened Wrappers
  import opened Js
  import opened Common
  import opened Strings

  const API := "https://api.github.com"
  const ACCEPT := "application/vnd.github+json"
  const API_VERSION := "2022-11-28"

  /** The JWT is issued this many seconds in the past, against clock skew. */
  const ISSUED_SKEW := 30
  /** The JWT expires this many seconds from now (GitHub allows ten minutes). */
  const JWT_LIFETIME := 540
  /** A cached token is refreshed this many milliseconds before it expires. */
  const REFRESH_BUFFER := 5 * 60 * 1000

  datatype AppOptions = AppOptions(appId: string, privateKey: string, repository: string)

  /** `JSON.stringify`, `Buffer.from(..).toString("base64url")` and the
      RSA-SHA256 signature (base64url) of an input under a private key. */
  datatype Crypto = Crypto(
    stringify: JsValue -> string,
    base64url: string -> string,
    sign: (string, string) -> string)

  datatype Verb = Get | Post

  datatype FetchRequest = FetchRequest(verb: Verb, url: string, headers: Headers, body: Option<string>)

  /** What a settled `fetch` offers: `ok`, status, status text, and the body
      as text and as parsed JSON. */
  datatype Response = Response(ok: bool, status: int, statusText: string, text: string, json: JsValue)

  /** `fetch`: a response, or a rejection (network failure). */
  type Fetch = FetchRequest -> Res<Response>

  /** What the helpers need besides the app options: the HTTP client, the
      crypto primitives and `new Date(s).getTime()` (None for an invalid date). */
  datatype Env = Env(fetch: Fetch, crypto: Crypto, parseDate: JsValue -> Option<int>)

  function Error(message: string): Error
  {
    Thrown("Error", message)
  }

  // ----- the app JWT -----

  const JWT_HEADER := Obj(map["alg" := Str("RS256"), "typ" := Str("JWT")])

  /** The claims of the app JWT at `now` seconds. */
  function JwtPayload(appId: string, now: int): JsValue
  {
    Obj(map["iat" := Num(now - ISSUED_SKEW), "exp" := Num(now + JWT_LIFETIME), "iss" := Str(appId)])
  }

  /** `Math.floor(Date.now() / 1000)`. */
  function Seconds(nowMs: int): int
  {
    nowMs / 1000
  }

  /** `generateJWT`: header, payload and signature, dot-separated. */
  function GenerateJwt(c: Crypto, appId: string, privateKey: string, nowMs: int): string
  {
    var header := c.base64url(c.stringify(JWT_HEADER));
    var payload := c.base64url(c.stringify(JwtPayload(appId, Seconds(nowMs))));
    header + "." + payload + "." + c.sign(header + "." + payload, privateKey)
  }

  /** The JWT is valid from 30 seconds before the current second to 540
      seconds after it: the moment of issue lies inside its window, which
      spans less than GitHub's ten-minute maximum. */
  lemma JwtWindow(appId: string, nowMs: int)
    ensures var p := JwtPayload(appId, Seconds(nowMs)).fields;
      && p["iss"] == Str(appId)
      && p["iat"].n * 1000 <= nowMs < p["exp"].n * 1000
      && p["exp"].n - p["iat"].n == 570 < 600
  {
  }

  /** With a base64url alphabet (no "."), the JWT has exactly three parts:
      the encoded header, the encoded payload, and the signature of the two. */
  lemma JwtParts(c: Crypto, appId: string, privateKey: string, nowMs: int)
    requires var h := c.base64url(c.stringify(JWT_HEADER));
      var p := c.base64url(c.stringify(JwtPayload(appId, Seconds(nowMs))));
      '.' !in h && '.' !in p && '.' !in c.sign(h + "." + p, privateKey)
    ensures var h := c.base64url(c.stringify(JWT_HEADER));
      var p := c.base64url(c.stringify(JwtPayload(appId, Seconds(nowMs))));
      Split(GenerateJwt(c, appId, privateKey, nowMs), '.') == [h, p, c.sign(h + "." + p, privateKey)]
  {
    var h := c.base64url(c.stringify(JWT_HEADER));
    var p := c.base64url(c.stringify(JwtPayload(appId, Seconds(nowMs))));
    var s := c.sign(h + "." + p, privateKey);
    assert "." == ['.'];
    SplitThree(h, p, s, '.');
  }

  // ----- installations -----

  function ApiHeaders(jwt: string): Headers
  {
    map["Authorization" := "Bearer " + jwt, "Accept" := ACCEPT, "X-GitHub-Api-Version" := API_VERSION]
  }

  function Failure(what: string, r: Response): Error
  {
    Error(what + ": " + IntToString(r.status) + " " + r.statusText + "\n" + r.text)
  }

  /** `listInstallations`: the parsed list, or an error for a failed request. */
  function ListInstallations(fetch: Fetch, jwt: string): (r: Res<JsValue>)
    ensures r.Ok? <==> (
      && fetch(FetchRequest(Get, API + "/app/installations", ApiHeaders(jwt), None)).Ok?
      && fetch(FetchRequest(Get, API + "/app/installations", ApiHeaders(jwt), None)).value.ok)
    ensures var response := fetch(FetchRequest(Get, API + "/app/installations", ApiHeaders(jwt), None));
      // A rejection passes through; a failed reply is reported with its status.
      && (response.Err? ==> r == Err(response.error))
      && (response.Ok? && !response.value.ok ==> r == Err(Failure("Failed to list installations", response.value)))
      // An ok reply answers its parsed body.
      && (r.Ok? ==> r.value == response.value.json)
  {
    var response :- fetch(FetchRequest(Get, API + "/app/installations", ApiHeaders(jwt), None));
    if !response.ok then Err(Failure("Failed to list installations", response)) else Ok(response.json)
  }

  /** `listInstallations(jwt).catch(() => [])`, then `installations[0].id`
      when `installations.length > 0`: None when there is none. Reading the
      length of null, or the id of a null first element, throws. */
  function FirstInstallation(listed: Res<JsValue>): (r: Res<Option<JsValue>>)
    ensures listed.Err? ==> r == Ok(None)
    ensures listed.Ok? && listed.value.Arr? && listed.value.items != [] && !Nullish(listed.value.items[0]) ==>
      r == Ok(Some(Prop(listed.value.items[0], "id")))
    ensures listed.Ok? && listed.value.Arr? && listed.value.items == [] ==> r == Ok(None)
  {
    var installations := if listed.Err? then Arr([]) else listed.value;
    match installations
    case Arr(items) =>
      if items == [] then Ok(None)
      else if Nullish(items[0]) then Err(TypeError("Cannot read properties of " + ToString(items[0])))
      else Ok(Some(Prop(items[0], "id")))
    case Str(s) => if s == "" then Ok(None) else Ok(Some(Undefined))
    case Null => Err(TypeError("Cannot read properties of null"))
    case Undefined => Err(TypeError("Cannot read properties of undefined"))
    case _ => Ok(None)
  }

  function InvalidRepository(repository: string): string
  {
    "Invalid repository format: " + repository + ". Expected format: owner/repo"
  }

  function NotInstalled(repository: string): string
  {
    "GitHub App is not installed on repository: " + repository
  }

  /** `const [owner, repo] = repository.split("/")`; a missing part is "". */
  function RepoParts(repository: string): (string, string)
  {
    var parts := Split(repository, '/');
    (parts[0], if |parts| > 1 then parts[1] else "")
  }

  function InstallationRequest(jwt: string, owner: string, repo: string): FetchRequest
  {
    FetchRequest(Get, API + "/repos/" + owner + "/" + repo + "/installation", ApiHeaders(jwt), None)
  }

  /** `getInstallationId`: the installation of the repository; on a 404 the
      app's first installation; otherwise an error. */
  function GetInstallationId(fetch: Fetch, jwt: string, repository: string): (r: Res<JsValue>)
    ensures RepoParts(repository).0 == "" || RepoParts(repository).1 == "" ==>
      r == Err(Error(InvalidRepository(repository)))
    ensures var (owner, repo) := RepoParts(repository);
      var response := fetch(InstallationRequest(jwt, owner, repo));
      owner != "" && repo != "" && response.Ok? && !response.value.ok ==>
        if response.value.status == 404 then
          match FirstInstallation(ListInstallations(fetch, jwt))
          case Ok(None) => r == Err(Error(NotInstalled(repository)))
          case Ok(Some(id)) => r == Ok(id)
          case Err(e) => r == Err(e)
        else r == Err(Failure("Failed to get installation ID", response.value))
    // A rejected request rejects the lookup; a successful one answers `data.id`.
    ensures var (owner, repo) := RepoParts(repository);
      var response := fetch(InstallationRequest(jwt, owner, repo));
      owner != "" && repo != "" ==>
        && (response.Err? ==> r == Err(response.error))
        && (response.Ok? && response.value.ok ==> r == Member(response.value.json, "id"))
  {
    var (owner, repo) := RepoParts(repository);
    if owner == "" || repo == "" then Err(Error(InvalidRepository(repository)))
    else
      var response :- fetch(InstallationRequest(jwt, owner, repo));
      if !response.ok then
        if response.status == 404 then
          var first :- FirstInstallation(ListInstallations(fetch, jwt));
          if first.Some? then Ok(first.value) else Err(Error(NotInstalled(repository)))
        else Err(Failure("Failed to get installation ID", response))
      else Member(response.json, "id")
  }

  /** A repository name without a slash, or with an empty owner or name, is
      refused before any request. */
  lemma InvalidRepositoryRefused(fetch: Fetch, jwt: string, owner: string, repo: string)
    requires '/' !in owner && '/' !in repo
    ensures owner == "" || repo == "" ==> GetInstallationId(fetch, jwt, owner + "/" + repo) == Err(Error(InvalidRepository(owner + "/" + repo)))
    ensures '/' !in owner ==> GetInstallationId(fetch, jwt, owner) == Err(Error(InvalidRepository(owner)))
  {
    assert owner + "/" + repo == owner + ['/'] + repo;
    SplitAt(owner, '/', repo);
    SplitNone(repo, '/');
    SplitNone(owner, '/');
  }

  // ----- the access token -----

  /** The body of the token request: always `contents: write` and
      `metadata: read`; the repository only when one is given. */
  function AccessTokenBody(repository: string): (body: JsValue)
    ensures body.Obj? && "permissions" in body.fields
    ensures body.fields["permissions"] == Obj(map["contents" := Str("write"), "metadata" := Str("read")])
    ensures "repository" in body.fields <==> repository != ""
    ensures repository != "" ==> body.fields["repository"] == Str(repository)
    ensures body.fields.Keys <= {"permissions", "repository"}
  {
    var permissions := Obj(map["contents" := Str("write"), "metadata" := Str("read")]);
    if repository != "" then Obj(map["permissions" := permissions, "repository" := Str(repository)])
    else Obj(map["permissions" := permissions])
  }

  datatype IssuedToken = IssuedToken(token: JsValue, expiresAt: JsValue)

  function AccessTokenRequest(c: Crypto, jwt: string, installationId: JsValue, repository: string): FetchRequest
  {
    FetchRequest(
      Post,
      API + "/app/installations/" + ToString(installationId) + "/access_tokens",
      ApiHeaders(jwt)["Content-Type" := "application/json"],
      Some(c.stringify(AccessTokenBody(repository))))
  }

  /** `getInstallationToken`: `data.token` and `data.expires_at`. */
  function GetInstallationToken(env: Env, jwt: string, installationId: JsValue, repository: string): (r: Res<IssuedToken>)
    ensures var response := env.fetch(AccessTokenRequest(env.crypto, jwt, installationId, repository));
      && (response.Err? ==> r == Err(response.error))
      && (response.Ok? && !response.value.ok ==> r == Err(Failure("Failed to get installation token", response.value)))
      && (response.Ok? && response.value.ok && Nullish(response.value.json) ==> r.Err? && r.error.Thrown?)
      // An ok reply with a body issues its `token` and `expires_at`.
      && (response.Ok? && response.value.ok && !Nullish(response.value.json) ==>
            r == Ok(IssuedToken(Prop(response.value.json, "token"), Prop(response.value.json, "expires_at"))))
      && (r.Ok? ==> (
            && response.Ok? && response.value.ok && !Nullish(response.value.json)
            && r.value == IssuedToken(Prop(response.value.json, "token"), Prop(response.value.json, "expires_at"))))
  {
    var response :- env.fetch(AccessTokenRequest(env.crypto, jwt, installationId, repository));
    if !response.ok then Err(Failure("Failed to get installation token", response))
    else
      var token :- Member(response.json, "token");
      Ok(IssuedToken(token, Prop(response.json, "expires_at")))
  }

  /** The installation `generateGitHubToken` settles on: the looked-up one,
      or, when the lookup fails for any reason, the app's first
      installation; with none, the lookup's own error. */
  function ChooseInstallation(env: Env, jwt: string, repository: string): (r: Res<JsValue>)
    ensures GetInstallationId(env.fetch, jwt, repository).Ok? ==> r == GetInstallationId(env.fetch, jwt, repository)
    ensures GetInstallationId(env.fetch, jwt, repository).Err? ==>
      match FirstInstallation(ListInstallations(env.fetch, jwt))
      // No installation listed: the lookup's own error.
      case Ok(None) => r == GetInstallationId(env.fetch, jwt, repository)
      case Ok(Some(id)) => r == Ok(id)
      // Reading the first installation of a malformed listing throws.
      case Err(e) => r == Err(e)
  {
    var looked := GetInstallationId(env.fetch, jwt, repository);
    if looked.Ok? then looked
    else
      var first :- FirstInstallation(ListInstallations(env.fetch, jwt));
      if first.Some? then Ok(first.value) else looked
  }

  /** `generateGitHubToken` at `nowMs`. */
  function GenerateToken(env: Env, o: AppOptions, nowMs: int): (r: Res<IssuedToken>)
    // One JWT serves both the installation lookup and the token request.
    ensures var jwt := GenerateJwt(env.crypto, o.appId, o.privateKey, nowMs);
      var chosen := ChooseInstallation(env, jwt, o.repository);
      && (chosen.Err? ==> r == Err(chosen.error))
      && (chosen.Ok? ==> r == GetInstallationToken(env, jwt, chosen.value, o.repository))
  {
    var jwt := GenerateJwt(env.crypto, o.appId, o.privateKey, nowMs);
    var installationId :- ChooseInstallation(env, jwt, o.repository);
    GetInstallationToken(env, jwt, installationId, o.repository)
  }

  /** An app installed somewhere, asked for a malformed repository name,
      still obtains a token for its first installation. */
  lemma FallbackCoversMalformedName(env: Env, jwt: string, repository: string)
    requires RepoParts(repository).0 == "" || RepoParts(repository).1 == ""
    requires FirstInstallation(ListInstallations(env.fetch, jwt)).Ok?
    requires FirstInstallation(ListInstallations(env.fetch, jwt)).value.Some?
    ensures ChooseInstallation(env, jwt, repository) == Ok(FirstInstallation(ListInstallations(env.fetch, jwt)).value.value)
  {
  }

  // ----- the cache -----

  datatype CachedToken = CachedToken(token: JsValue, expiresAt: Option<int>)

  /** The cached token is used when it expires later than `now` and `now`
      is before its refresh time, five minutes ahead of expiry. An invalid
      expiry date compares false and is never used. */
  predicate Usable(cache: Option<CachedToken>, now: int)
  {
    && cache.Some?
    && cache.value.expiresAt.Some?
    && cache.value.expiresAt.value > now
    && now < cache.value.expiresAt.value - REFRESH_BUFFER
  }

  /** One `getCachedGitHubToken` call on the cache state: the result and the
      cache afterwards, given what generating a token would yield. */
  function CacheStep(cache: Option<CachedToken>, generated: Res<IssuedToken>, parseDate: JsValue -> Option<int>, now: int)
    : (step: (Res<JsValue>, Option<CachedToken>))
    ensures Usable(cache, now) ==> step == (Ok(cache.value.token), cache)
    ensures !Usable(cache, now) && generated.Err? ==> step == (Err(generated.error), cache)
    ensures !Usable(cache, now) && generated.Ok? ==>
      step == (Ok(generated.value.token), Some(CachedToken(generated.value.token, parseDate(generated.value.expiresAt))))
  {
    if Usable(cache, now) then (Ok(cache.value.token), cache)
    else if generated.Err? then (Err(generated.error), cache)
    else (Ok(generated.value.token), Some(CachedToken(generated.value.token, parseDate(generated.value.expiresAt))))
  }

  /** A refreshed token whose expiry is more than five minutes away is
      served again at the same moment, whatever generating would now yield. */
  lemma RefreshThenHit(cache: Option<CachedToken>, generated: Res<IssuedToken>, again: Res<IssuedToken>,
                       parseDate: JsValue -> Option<int>, now: int)
    requires !Usable(cache, now) && generated.Ok?
    requires parseDate(generated.value.expiresAt).Some?
    requires now < parseDate(generated.value.expiresAt).value - REFRESH_BUFFER
    ensures var first := CacheStep(cache, generated, parseDate, now);
      && first.0 == Ok(generated.value.token)
      && CacheStep(first.1, again, parseDate, now) == first
  {
  }

  /** A token usable now stays usable earlier on, and one past its refresh
      time is never served again. */
  lemma UsableMonotone(cache: Option<CachedToken>, now: int, later: int)
    requires now <= later
    ensures Usable(cache, later) ==> Usable(cache, now)
    ensures cache.Some? && cache.value.expiresAt.Some? && later >= cache.value.expiresAt.value - REFRESH_BUFFER ==>
      !Usable(cache, later)
  {
  }

  /** The module-level token cache. */
  class TokenCache {
    var cache: Option<CachedToken>

    constructor()
      ensures cache == None
    {
      cache := None;
    }

    /** `getCachedGitHubToken` at `now` (milliseconds). A new token is
        generated only when the cached one is not usable. */
    method GetCachedToken(env: Env, o: AppOptions, now: int) returns (r: Res<JsValue>)
      modifies this
      ensures (r, cache) == CacheStep(old(cache), GenerateToken(env, o, now), env.parseDate, now)
    {
      if cache.Some? && cache.value.expiresAt.Some? && cache.value.expiresAt.value > now {
        var refreshTime := cache.value.expiresAt.value - REFRESH_BUFFER;
        if now < refreshTime {
          return Ok(cache.value.token);
        }
      }
      var generated := GenerateToken(env, o, now);
      if generated.Err? {
        return Err(generated.error);
      }
      cache := Some(CachedToken(generated.value.token, env.parseDate(generated.value.expiresAt)));
      r := Ok(generated.value.token);
    }
  }
}
