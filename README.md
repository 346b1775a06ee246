# data-proxy, modelled in Dafny

data-proxy is an HTTP gateway. It sits in front of a content store: a GitLab
project, a GitHub repository, or a directory on disk. It exposes a GitLab-shaped
REST API for listing trees, reading files, committing and driving pipelines.

Each data request goes through two stages:

- an optional `before` hook, such as the ref and path restrictions of
  `beforeCheckPermissions`;
- a bearer-token check.

Tokens come from an `authenticate` route, which a pluggable authentication
backend answers. The backends are:

- a fixed or computed login → bcrypt-hash map;
- a map read from files in the store;
- the Omnipartners identity service, optionally restricted to users listed in
  store files.

A react-admin authentication provider in the browser logs in against that
route and keeps the token in local storage.

## Modules

| module | models |
|---|---|
| `Wrappers` | `Option` and `Result` |
| `Strings` | string helpers |
| `Js` | JavaScript values |
| `Common` | errors and property access |
| `Interface` | the backend contract |
| `Paths` | Node's `path.join` and `path.normalize` |
| `Loader` | `loadFileList`, `loadFile` |
| `AuthBase` | `authBase` |
| `AuthMap` | `authBaseMap`, `authBackendFileList`, `authBackendFile` |
| `Permissions` | `beforeCheckPermissions`, `optionsGetter` |
| `Gateway` | the route handlers and the error handler of `server.ts` |
| `Filesystem` | the filesystem backend |
| `Gitlab` | the GitLab backend |
| `Github` | the GitHub backend |
| `GithubToken` | GitHub App installation tokens |
| `Omnipartners` | the Omnipartners backend and its two user verifiers |
| `ClientAuth` | the react-admin provider |

### How outside services are modelled

Every outside service is a parameter of the model. This covers:

- the network clients (`got`, Octokit, `fetch`);
- the token, hash and crypto libraries;
- `JSON`, base64 and `querystring`;
- the clock;
- the identity service.

Round-trip properties of these services, such as "a token signed with a
secret verifies with it", are stated as preconditions of the lemmas that need
them.

### Objects that change state

Objects whose state changes are classes:

- the disk and the filesystem backend;
- the module-level GitHub token cache;
- the browser's local storage.

Each of their methods is proved against a function of the old state.

### Traces

The handlers and the loader return the requests they made, in order. This lets
the model state ordering facts, such as:

- the hook runs before the check;
- nothing reaches the backend before admission;
- pages 1..N are each requested once.

## Model

| member | source | states |
|---|---|---|
| AuthBase.BearerToken | packages/server/src/auth/base.ts:30-34 | only a "Bearer" header yields a token, which is non-empty and has no space |
| AuthBase.BearerTokenOf | packages/server/src/auth/base.ts:30-34 | "Bearer t" and "Bearer t tail" both yield t |
| AuthBase.AuthCheck | packages/server/src/auth/base.ts:26-55 | a non-bearer header is refused; expected verification errors become a bad request and others are rethrown; a payload without a truthy login is refused without consulting `check`; true only when `check` accepts a verified login |
| AuthBase.AuthLogin | packages/server/src/auth/base.ts:57-78 | a non-object body gives nothing; a null body throws a TypeError; a falsy login or password gives nothing without consulting `verifyPassword`; a token signs exactly `{login}` and only after `verifyPassword` accepted; its rejection propagates |
| AuthBase.LoginDecided | packages/server/src/auth/base.ts:63-78 | for a well-formed body, the answer is a signed `{login}` iff `verifyPassword` resolved truthy |
| AuthBase.LoginThenCheck | packages/server/src/auth/base.ts:30-77 | a token from `authLogin`, sent back as a bearer header, is accepted iff `check` accepts the login |
| AuthMap.Check | packages/server/src/auth/baseMap.ts:17-23 | disabled: every login passes; otherwise a map failure propagates and a login passes iff its entry is truthy |
| AuthMap.VerifyPassword | packages/server/src/auth/baseMap.ts:24-31 | the map's error if it does not resolve; false without comparing for a missing or falsy entry; otherwise the hash comparison's answer, or its error; true iff the comparison succeeds |
| AuthMap.BaseMapOptions | packages/server/src/auth/baseMap.ts:14-32 | `authBase` receives the secret, sign options, `Check` and `VerifyPassword` unchanged |
| AuthMap.Kept | packages/server/src/auth/backendFileList.ts:45 | every entity the filter keeps has a truthy login and password |
| AuthMap.AuthMapOf | packages/server/src/auth/backendFileList.ts:44-50 | the map fails, with a TypeError, iff some entity is null or undefined |
| AuthMap.AuthMapSnoc | packages/server/src/auth/backendFileList.ts:46-49 | the reduce adds one entity at a time, and an ineligible one changes nothing |
| AuthMap.AuthMapKeys | packages/server/src/auth/backendFileList.ts:44-49 | a login is a key iff some eligible entity carries it |
| AuthMap.HasLoginSnoc | packages/server/src/auth/backendFileList.ts:44-45 | one more entity adds its own login to the known logins exactly when it passes the filter |
| AuthMap.AuthMapLastWins | packages/server/src/auth/backendFileList.ts:46-49 | for a repeated login, the last eligible entity's password is kept |
| AuthMap.BuildAuthMap | packages/server/src/auth/backendFileList.ts:44-50 | the loop computes exactly `AuthMapOf` |
| AuthMap.CollectLogins | packages/server/src/auth/backendFileList.ts:46-49 | the `reduce` pass computes exactly `Collect`, the last entity with a login giving its password |
| AuthMap.FileListAuthMap | packages/server/src/auth/backendFileList.ts:23-51 | one tree request for page 1, then one read per listed file; the map is built from what they return |
| AuthMap.FileListAuthMapFirstPage | packages/server/src/auth/backendFileList.ts:24-29 | only page 1 is ever listed, whatever page count it announces, on the configured project and ref |
| AuthMap.FileListAuthMapKeys | packages/server/src/auth/backendFileList.ts:24-49 | a login is known iff some file of page 1 parses to an eligible entity carrying it |
| AuthMap.FileAuthMap | packages/server/src/auth/backendFile.ts:18-31 | one read; the map exists iff the file parses to an array without nullish items |
| AuthMap.FileListAuthOptions | packages/server/src/auth/backendFileList.ts:14-53 | the check is always disabled; the secret and sign options pass through; passwords are verified against the map computed from page 1 |
| AuthMap.FileAuthOptions | packages/server/src/auth/backendFile.ts:9-34 | the check is always disabled; the secret and sign options pass through; passwords are verified against the map computed from the file |
| AuthMap.FileListLoginNeedsStoredHash | packages/server/src/auth/backendFileList.ts:14-53 | a token is issued only to a login stored on page 1 whose hash matches the password |
| AuthMap.FileListStoredHashLogsIn | packages/server/src/auth/backendFileList.ts:14-53 | conversely, a login stored on page 1 with a truthy hash that matches the password gets a token signing `{login}` |
| Permissions.IndexOfItem | packages/server/src/beforeCheckPermissions.ts:19-25 | `indexOf`: the first position of the item, or -1 iff it is absent |
| Permissions.BeforeCheckPermissions | packages/server/src/beforeCheckPermissions.ts:11-30 | a given ref passes iff it is on the allow-list (if any) and off the deny-list (if any); the ref is judged before the path; a path is refused iff there is a pattern it does not match; a ref refusal means the ref was given and is off the allow-list or on the deny-list |
| Permissions.OptionsGetter | packages/server/src/options.ts:13-47 | another project gets nothing; the configured project gets its config iff the restrictions admit the request, else their error |
| Permissions.RestrictionsMonotone | packages/server/src/beforeCheckPermissions.ts:19-29 | with the same path pattern, shrinking the allow-list or growing the deny-list never admits more |
| Gateway.Admit | packages/server/src/server.ts:85-97 | the hook runs first; its refusal is the answer and the header is not checked; without a header the answer is 401 without calling `authCheck`; admission iff all steps pass; the backend is never called |
| Gateway.Guarded | packages/server/src/server.ts:79-108 | the backend is called iff the request is admitted, exactly once and last, and its reply is relayed; a refused request throws the admission error: the hook's error, 401 without a header, `authCheck`'s error, or 401 for a falsy check |
| Gateway.TreeRoute | packages/server/src/server.ts:79-108 | the hook gets `{path, ref}`; on admission the one backend call is `tree` with the query parameters and its reply is relayed; otherwise the hook's error, 401 without a header, `authCheck`'s error, or 401 for a falsy check |
| Gateway.ReadFileRoute | packages/server/src/server.ts:110-139 | the hook gets `{path: file, ref}`; on admission the one backend call is `readFile` and its reply is relayed; otherwise the same refusals as `tree` |
| Gateway.ListPipelinesRoute | packages/server/src/server.ts:190-216 | the hook gets `{ref}`; the backend is called once iff admitted, with the ref, and its reply is relayed; otherwise the same refusals as `tree` |
| Gateway.TriggerPipelineRoute | packages/server/src/server.ts:218-244 | the hook gets `{ref}`; the backend is called once iff admitted, with the ref, and its reply is relayed; otherwise the same refusals as `tree` |
| Gateway.GetPipelineRoute | packages/server/src/server.ts:246-270 | the hook sees no ref or path; the backend is called once iff admitted, with the id, and its reply is relayed; otherwise the same refusals as `tree` |
| Gateway.AuthenticateRoute | packages/server/src/server.ts:64-77 | a refusal by the hook is the answer; a rejection of the login passes through; the answer is `{token}` iff login resolved a truthy token, and 401 for a falsy one; neither the backend nor `authCheck` is consulted |
| Gateway.CommitRoute | packages/server/src/server.ts:141-188 | a malformed body is 400 before any hook; the hook sees the first action's path and the branch; a refused commit answers the hook's error, 401 without a header, `authCheck`'s error, or 401 for falsy auth data; a rejection of `beforeCommit` aborts with its error; what is committed is `beforeCommit`'s replacement when it returns one |
| Gateway.ToCommit | packages/server/src/server.ts:173-182 | without `beforeCommit` the received body is committed; its rejection aborts; a body it resolves to replaces the original, nothing keeps it |
| Gateway.StatusPhrase | packages/server/src/server.ts:48-52 | Boom's reason phrase is the status code table's entry, or "Unknown" |
| Gateway.BoomPayload | packages/server/src/server.ts:48-52 | the payload carries the status and its phrase; a message only when there is one, and always the generic one for a 500 |
| Gateway.ErrorHandler | packages/server/src/server.ts:48-58 | Boom errors answer with their status, headers and payload; upstream HTTP errors relay status and body; anything else is passed on |
| Gateway.Serve | packages/server/src/server.ts:48-61 | a handler's response is sent as it is; only an error that is neither Boom nor upstream HTTP goes unanswered, passed on unchanged |
| Gateway.MissingHeaderIs401 | packages/server/src/server.ts:79-108 | a data request without Authorization is answered 401, and the backend is not called |
| Loader.ReadAll | packages/server/src/utils/loadFileList.ts:41-54 | succeeds iff every read and parse does; entities in listing order, one read per entry; a failure is one entry's error |
| Loader.LoadPage | packages/server/src/utils/loadFileList.ts:29-57 | a page starts with one tree request for that page, project and ref |
| Loader.LoadPageShape | packages/server/src/utils/loadFileList.ts:29-57 | a page succeeds iff its tree request and every read succeed; then its entities are the listing's, in order |
| Loader.LoadPageRequests | packages/server/src/utils/loadFileList.ts:29-57 | a successful page makes exactly one tree request, for that page, and every request is on the configured target |
| Loader.LoadPageSize | packages/server/src/utils/loadFileList.ts:29-57 | a successful page holds one entity per listed file |
| Loader.DigitPrefix | packages/server/src/utils/loadFileList.ts:13 | the longest decimal-digit prefix that `parseInt` reads |
| Loader.ParseIntOfNatToString | packages/server/src/utils/loadFileList.ts:13 | a page count written in decimal is read back unchanged |
| Loader.TotalPages | packages/server/src/utils/loadFileList.ts:13-14 | between 1 and 2^32; a missing or empty header means 1; any failure is the RangeError of `Array(count - 1)` |
| Loader.TotalPagesOfCount | packages/server/src/utils/loadFileList.ts:13-14 | the header of a count from 1 to 2^32 yields that count |
| Loader.TotalPagesOutOfRange | packages/server/src/utils/loadFileList.ts:13-14 | the header of a count of 0, or above 2^32, gives the RangeError "Invalid array length" |
| Loader.PageQueries | packages/server/src/utils/loadFileList.ts:14-24 | the page requests for from..to number to-from+1 |
| Loader.LoadPagesFailure | packages/server/src/utils/loadFileList.ts:14-24 | reading pages fails exactly when one of them fails |
| Loader.LoadPagesEntities | packages/server/src/utils/loadFileList.ts:14-26 | on success the entities are the pages' entities, concatenated in page order |
| Loader.LoadPagesSize | packages/server/src/utils/loadFileList.ts:26 | on success the entity count is the sum of the listing lengths |
| Loader.LoadPagesRequests | packages/server/src/utils/loadFileList.ts:14-24 | on success each page was requested once, in order, all with the configured project and ref |
| Loader.PageQueriesStep | packages/server/src/utils/loadFileList.ts:14-24 | the requests for pages from..to are the first page's followed by the others', in page order |
| Loader.AllOnTargetAppend | packages/server/src/utils/loadFileList.ts:14-24 | traces on the configured project and ref stay so when concatenated |
| Loader.LoadFileList | packages/server/src/utils/loadFileList.ts:11-27 | the first request is the tree of page 1 |
| Loader.LoadFileListFailure | packages/server/src/utils/loadFileList.ts:11-27 | it fails exactly when page 1, its announced page count or a later page fails |
| Loader.LoadFileListUnfold | packages/server/src/utils/loadFileList.ts:11-26 | success is page 1 followed by pages 2..N, N announced by page 1 |
| Loader.LoadFileListEntities | packages/server/src/utils/loadFileList.ts:11-26 | the entities are pages 1..N in page order, as many as the listings hold |
| Loader.LoadFileListRequests | packages/server/src/utils/loadFileList.ts:11-24 | pages 1..N requested once each, in order, on the configured project and ref |
| Loader.PageStringsDistinct | packages/server/src/utils/loadFileList.ts:19 | pages are requested under pairwise distinct decimal strings |
| Loader.LoadFile | packages/server/src/utils/loadFile.ts:10-24 | exactly one read of the configured path; read errors propagate; otherwise the decoded, parsed content |
| Filesystem.Stat | packages/server/src/backend/filesystem.ts:79-80 | succeeds iff the path exists; otherwise ENOTDIR below a file and ENOENT elsewhere |
| Filesystem.ReadFileOf | packages/server/src/backend/filesystem.ts:101-131 | not found iff the path is absent or a directory; otherwise the whole content base64-encoded, with size, hash and path |
| Filesystem.TreeGuardAsWritten | packages/server/src/backend/filesystem.ts:79-86 | the guard as written is never true; a missing path is an error |
| Filesystem.TreeOfNonDirAsWritten | packages/server/src/backend/filesystem.ts:79-99 | as written, listing a path that is not a directory always fails |
| Filesystem.TreeOfMissingDirFails | packages/server/src/backend/filesystem.ts:79-86 | listing a missing directory of an empty disk fails with ENOENT |
| Filesystem.TreeGuard | packages/server/src/backend/filesystem.ts:79-86 | the intended guard: true iff the path is not a directory |
| Filesystem.ApplyActionEffect | packages/server/src/backend/filesystem.ts:45-59 | a failed action changes nothing; moves do nothing; a missing content is a TypeError; a write stores exactly the decoded content; a delete removes exactly a file |
| Filesystem.WriteEffect | packages/server/src/backend/filesystem.ts:50-55 | a write without content is a TypeError, a failed write changes nothing, a successful one stores the content at the path |
| Filesystem.ApplyActionWellFormed | packages/server/src/backend/filesystem.ts:45-59 | every action keeps the disk a tree rooted at a directory |
| Filesystem.WriteWellFormed | packages/server/src/backend/filesystem.ts:50-55 | a write keeps the disk a tree rooted at a directory |
| Filesystem.UnlinkWellFormed | packages/server/src/backend/filesystem.ts:56-57 | unlinking a file keeps the disk a tree rooted at a directory |
| Filesystem.WriteThenRead | packages/server/src/backend/filesystem.ts:45-131 | reading a written path gives back the written bytes |
| Filesystem.DeleteThenRead | packages/server/src/backend/filesystem.ts:56-131 | reading a deleted path is not found |
| Filesystem.SucceededInPrefix | packages/server/src/backend/filesystem.ts:132-142 | whether an action succeeded does not depend on the actions after it |
| Filesystem.SequencedSucceeds | packages/server/src/backend/filesystem.ts:132-142 | a commit succeeds iff each action succeeds on the state the previous ones left |
| Filesystem.SequencedFirstFailure | packages/server/src/backend/filesystem.ts:132-142 | a failed commit reports the error of its first failing action |
| Filesystem.ApplyAllWellFormed | packages/server/src/backend/filesystem.ts:132-142 | a whole commit keeps the disk well formed |
| Filesystem.BackendFilesystem.constructor | packages/server/src/backend/filesystem.ts:68-70 | the working directory is fixed at construction; a well-formed disk gives a valid backend |
| Filesystem.BackendFilesystem.ReadFile | packages/server/src/backend/filesystem.ts:101-131 | the method answers `ReadFileOf` of the current disk |
| Filesystem.BackendFilesystem.Tree | packages/server/src/backend/filesystem.ts:72-100 | with the intended guard: empty for a non-directory; otherwise one entry per child, each child exactly once |
| Filesystem.BackendFilesystem.DoCommitAction | packages/server/src/backend/filesystem.ts:45-59 | the disk and result after one action are those of `ApplyAction` |
| Filesystem.BackendFilesystem.WriteFile | packages/server/src/backend/filesystem.ts:50-55 | the disk and result after a create or update are those of `Write` |
| Filesystem.BackendFilesystem.Commit | packages/server/src/backend/filesystem.ts:132-142 | the disk after a commit is `ApplyAll`'s, and the reply is `{ok: true}` iff every action succeeded |
| Filesystem.FileToTreeAt | packages/server/src/backend/filesystem.ts:13-43 | an existing path gives an entry with its basename, path, and blob or tree type |
| Filesystem.ListedChild | packages/server/src/backend/filesystem.ts:89-99 | each child of a canonical directory is listed under "dir/name" and resolves to itself |
| Paths.AbsPathPlain | packages/server/src/backend/filesystem.ts:78 | resolved paths consist of plain segments |
| Paths.JoinEntry | packages/server/src/backend/filesystem.ts:92 | joining a directory with an entry name resolves to the child, with that basename |
| Paths.JoinCanonical | packages/server/src/backend/github.ts:54-55 | joining two canonical relative paths puts one slash between them |
| Gitlab.BaseUrl | packages/server/src/backend/gitlab.ts:197-204 | host (or gitlab.com), "api", version (or v4), slash-joined |
| Gitlab.BaseUrlDefaults | packages/server/src/backend/gitlab.ts:197-204 | missing or empty host and version give `https://gitlab.com/api/v4` |
| Gitlab.Relay | packages/server/src/backend/gitlab.ts:65-68 | errors pass unchanged; the body is relayed and exactly the listed headers are kept, with their values |
| Gitlab.QueryItems | packages/server/src/backend/gitlab.ts:50-54 | one `key=encoded value` item per pair, in order |
| Gitlab.Endpoint | packages/server/src/backend/gitlab.ts:49-180 | every endpoint path starts with a slash |
| Gitlab.RequestFor | packages/server/src/backend/gitlab.ts:47-192 | every request carries the private token and the base URL; POST iff a commit or trigger; a body iff a commit, and then it is the commit body |
| Gitlab.Send | packages/server/src/backend/gitlab.ts:47-192 | `got`'s error passes through unchanged; otherwise its body, and exactly the upstream headers picked for the operation: each picked upstream header is kept, and each relayed header is upstream's, with its value |
| Gitlab.FileHeadersExtendBase | packages/server/src/backend/gitlab.ts:88-101 | `readFile` relays the base headers plus only `x-gitlab-*` ones |
| Gitlab.RequestAddressed | packages/server/src/backend/gitlab.ts:47-192 | the second path segment of every request is the encoded project id |
| Gitlab.TreeRequestQuery | packages/server/src/backend/gitlab.ts:50-54 | the tree query carries page, path and ref, in that order |
| Github.BasePathRoundTrip | packages/server/src/backend/github.ts:54-57 | removing the base path undoes appending it |
| Github.OwnerRepo | packages/server/src/backend/github.ts:110-111 | "owner/repo" names that owner and repository |
| Github.FindEntry | packages/server/src/backend/github.ts:78 | the first tree entry with the path, or none iff no entry has it |
| Github.Lookup | packages/server/src/backend/github.ts:63-100 | tree errors propagate; a file absent from the tree is not found; for a file in the tree, the contents API's error propagates, a non-file is not found, and a file object is the answer |
| Github.GetContentAsWritten | packages/server/src/backend/github.ts:63-100 | as written: the file is looked up, without the base path, in the tree at the ref; a listed file is answered with the default branch's file, that request's error, or not found for a non-file |
| Github.GetContent | packages/server/src/backend/github.ts:63-100 | the corrected lookup: tree errors propagate; a file missing from the tree is not found; a listed base-path-prefixed file is answered with its content at the requested ref, or that request's error |
| Github.Keep | packages/server/src/backend/github.ts:118-129 | a tree entry is listed iff it is a blob under the path, and then as its base-relative path and sha |
| Github.TreeListing | packages/server/src/backend/github.ts:118-129 | no more listed files than tree entries |
| Github.TreeListingMembers | packages/server/src/backend/github.ts:118-129 | a file is listed iff it comes from a kept tree entry |
| Github.TreeListingAppend | packages/server/src/backend/github.ts:118-129 | the listing keeps the tree's order |
| Github.ListedUnderBase | packages/server/src/backend/github.ts:118-129 | a blob stored at base/rest is listed as rest |
| Github.Tree | packages/server/src/backend/github.ts:103-140 | errors propagate; otherwise exactly the `TreeListing` of the ref's recursive tree, with no headers |
| Github.FileHeaders | packages/server/src/backend/github.ts:150-155 | commit id empty and blob id the sha |
| Github.FileReply | packages/server/src/backend/github.ts:141-157 | content with line breaks removed, blob id the sha, the encoding passed through, the API URL as file path, and exactly the file headers |
| Github.WithoutDropsOnly | packages/server/src/backend/github.ts:146 | removing line breaks removes them all and nothing else |
| Github.ReadFile | packages/server/src/backend/github.ts:141-157 | over the corrected lookup: lookup errors propagate; a found file gives its `FileReply` |
| Github.ReadFileRaw | packages/server/src/backend/github.ts:158-168 | over the corrected lookup: lookup errors propagate; a file with a download URL gives that URL; a bad request without it |
| Github.HeadFile | packages/server/src/backend/github.ts:169-186 | over the corrected lookup: the file headers iff the file has a download URL |
| Github.AsBackend | packages/server/src/backend/github.ts:102-157 | over the corrected lookup: `tree` and `readFile` as modelled, and listings that never announce a page count |
| Github.ListsOnePage | packages/server/src/backend/github.ts:131-139 | listings announce no page count, so the loader reads a single page |
| Github.Rebased | packages/server/src/backend/github.ts:193-199 | every action's path gets the base path; nothing else changes |
| Github.RebasedRoundTrip | packages/server/src/backend/github.ts:193-199 | stripping the base path from a rebased action gives the original back |
| Github.Commit | packages/server/src/backend/github.ts:187-213 | the GitLab commit request with the actions rebased |
| Github.CommitWithoutBasePath | packages/server/src/backend/github.ts:187-213 | without a base path the commit is GitLab's |
| Github.Pipeline | packages/server/src/backend/github.ts:215-282 | the pipeline operations are GitLab's, relaying only the base headers |
| Github.BranchRequest | packages/server/src/backend/github.ts:284-305 | a GET with the private token and no body |
| Github.ShowBranch | packages/server/src/backend/github.ts:284-305 | fails iff the request fails; relays only base headers |
| Github.ReadsDefaultBranch | packages/server/src/backend/github.ts:86-90 | as written, a read at `dev` returns the default branch's file; the corrected lookup returns dev's |
| Github.ListedWithoutBase | packages/server/src/backend/github.ts:118-129 | with base path `content`, `tree` lists `content/a.json` as `a.json` |
| Github.ListedFileNotReadable | packages/server/src/backend/github.ts:72-85 | as written, reading that listed `a.json` is not found |
| Github.ListedFileReadable | packages/server/src/backend/github.ts:63-129 | with the corrected lookup every listed file reads back its own tree entry |
| GithubToken.JwtWindow | packages/server/src/auth/githubToken.ts:20-26 | the JWT is valid from 30 s before now to 540 s after, issued by the app |
| GithubToken.JwtParts | packages/server/src/auth/githubToken.ts:33-44 | the JWT is header.payload.signature, signature over the first two |
| GithubToken.ListInstallations | packages/server/src/auth/githubToken.ts:50-76 | a rejection passes through; a failed reply is an error with its status; an ok reply gives its parsed body |
| GithubToken.FirstInstallation | packages/server/src/auth/githubToken.ts:106-109 | a failed listing or an empty list gives no installation; otherwise the first one's id |
| GithubToken.GetInstallationId | packages/server/src/auth/githubToken.ts:81-122 | a malformed name is refused before any request; a rejected request rejects; an ok reply answers `data.id`; on 404 the first installation is the fallback; other statuses fail |
| GithubToken.InvalidRepositoryRefused | packages/server/src/auth/githubToken.ts:85-90 | a name with an empty owner or repository, or with no slash at all, is refused |
| GithubToken.AccessTokenBody | packages/server/src/auth/githubToken.ts:132-146 | always `contents: write, metadata: read`; `repository` iff one is given |
| GithubToken.GetInstallationToken | packages/server/src/auth/githubToken.ts:127-174 | a rejection passes through; a failed reply is an error; an ok reply with a body issues its `token` and `expires_at`; an ok reply without one throws |
| GithubToken.ChooseInstallation | packages/server/src/auth/githubToken.ts:187-198 | the looked-up installation; when the lookup fails, the first listed one, else the lookup's error; a malformed listing's error propagates |
| GithubToken.GenerateToken | packages/server/src/auth/githubToken.ts:180-202 | one JWT serves the lookup and the token request; the token is requested for the chosen installation, and a failed choice fails |
| GithubToken.FallbackCoversMalformedName | packages/server/src/auth/githubToken.ts:187-198 | an app installed somewhere uses its first installation even for a malformed name |
| GithubToken.CacheStep | packages/server/src/auth/githubToken.ts:208-234 | a usable cached token is returned unchanged; otherwise a new token replaces the cache, and a failure keeps it |
| GithubToken.RefreshThenHit | packages/server/src/auth/githubToken.ts:214-233 | a fresh token expiring more than five minutes ahead is served from cache on the next call |
| GithubToken.UsableMonotone | packages/server/src/auth/githubToken.ts:214-221 | usability only ends; past the refresh margin the token is not usable |
| GithubToken.TokenCache.constructor | packages/server/src/auth/githubToken.ts:15 | the cache starts empty |
| GithubToken.TokenCache.GetCachedToken | packages/server/src/auth/githubToken.ts:208-234 | the method's result and new cache are `CacheStep`'s |
| Omnipartners.VerifyPassword | packages/server-auth-omnipartners/src/authOmnipartners.ts:37-71 | the wrong-credential codes give false; other failures propagate; a falsy verifier answer gives false; otherwise the user data and verify data |
| Omnipartners.AuthOmnipartners | packages/server-auth-omnipartners/src/authOmnipartners.ts:28-72 | every login passes `check`; `verifyPassword` is the identity lookup |
| Omnipartners.CheckAcceptsSignedLogin | packages/server-auth-omnipartners/src/authOmnipartners.ts:36 | any verified token with a truthy login is accepted |
| Omnipartners.WrongCredentialsNoToken | packages/server-auth-omnipartners/src/authOmnipartners.ts:46-57 | wrong credentials give no token and no error |
| Omnipartners.ServiceFailurePropagates | packages/server-auth-omnipartners/src/authOmnipartners.ts:47-55 | other service failures fail the login with that error |
| Omnipartners.Find | packages/server-auth-omnipartners/src/verifyUserFromFileList.ts:14-15 | a found entity is the first strict match, every entity before it searched past; nothing found means none matches; a failure means a nullish entity comes before every match |
| Omnipartners.FindObjects | packages/server-auth-omnipartners/src/verifyUserFromFileList.ts:14-15 | over plain objects: never fails, finds iff one matches, and the found one is truthy |
| Omnipartners.OwnerGuid | packages/server-auth-omnipartners/src/verifyUserFromFileList.ts:13 | `user.owner.guid`; throws iff the user or owner is nullish |
| Omnipartners.Verdict | packages/server-auth-omnipartners/src/verifyUserFromFileList.ts:13-15 | the guid is read first and its error propagates; then the decision for that guid |
| Omnipartners.Decide | packages/server-auth-omnipartners/src/verifyUserFromFileList.ts:14-15 | the search's failure propagates; a search that does not fail always decides; true iff the first match is found and truthy; false when nothing matches or the first match is falsy |
| Omnipartners.VerdictListed | packages/server-auth-omnipartners/src/verifyUserFromFileList.ts:13-15 | over plain objects the verdict is whether the owner guid is listed |
| Omnipartners.VerdictOrderFree | packages/server-auth-omnipartners/src/verifyUserFromFileList.ts:14-15 | over plain objects the order of the entities does not matter |
| Omnipartners.MissingGuidMatchesFieldless | packages/server-auth-omnipartners/src/verifyUserFromFileList.ts:13-15 | an owner without guid matches an entity lacking the field |
| Omnipartners.VerifyUserFromFileList | packages/server-auth-omnipartners/src/verifyUserFromFileList.ts:8-16 | the list is loaded first and its errors propagate; then the verdict |
| Omnipartners.VerifyUserFromFile | packages/server-auth-omnipartners/src/verifyUserFromFile.ts:8-16 | the file is loaded and its errors propagate; then the owner guid is read and its error propagates; then a non-array throws a TypeError; otherwise the verdict |
| Omnipartners.ListVerifier | packages/server-auth-omnipartners/src/verifyUserFromFileList.ts:8-16 | plugged in as `verifyUser`, it answers the verdict as a boolean, or the failure |
| Omnipartners.ListVerifierAnswers | packages/server-auth-omnipartners/src/verifyUserFromFileList.ts:11-15 | the list verifier answers whether the owner guid is listed |
| Omnipartners.VerifyPasswordBoolean | packages/server-auth-omnipartners/src/authOmnipartners.ts:60-70 | a boolean verifier makes `verifyPassword` accept with it or refuse |
| Omnipartners.ListedUserLogsIn | packages/server-auth-omnipartners/src/authOmnipartners.ts:60-70 | with the list verifier an identified user gets a token iff their owner guid is listed |
| ClientAuth.Storage.constructor | packages/react-admin-provider/src/authProvider.ts:1-11 | the storage starts empty |
| ClientAuth.Storage.Token | packages/react-admin-provider/src/authProvider.ts:3-5 | the stored token, an empty one counting as none |
| ClientAuth.Storage.SetToken | packages/react-admin-provider/src/authProvider.ts:6-8 | stores the value's string form under the key; nothing else changes |
| ClientAuth.Storage.RemoveToken | packages/react-admin-provider/src/authProvider.ts:9-11 | removes only the key |
| ClientAuth.LoginRequest | packages/react-admin-provider/src/authProvider.ts:25-36 | a JSON POST of `{login, password}` to the authenticate URL |
| ClientAuth.LoginToken | packages/react-admin-provider/src/authProvider.ts:24-42 | a 2xx reply whose JSON is not nullish gives its `token`, and only such a reply succeeds; nullish params fail; otherwise the fetch error, the status text or the JSON error |
| ClientAuth.Handle | packages/react-admin-provider/src/authProvider.ts:18-59 | only the token key is written; login stores the token or rejects, keeping storage; logout removes it; a check resolves iff a token is stored; an unknown type rejects |
| ClientAuth.Provide | packages/react-admin-provider/src/authProvider.ts:18-59 | the method's outcome and storage are `Handle`'s |
| ClientAuth.LoginUrlRoutes | packages/react-admin-provider/src/authProvider.ts:25-28 | the client posts to the gateway's `authenticate` route |
| ClientAuth.LoginThenCheck | packages/react-admin-provider/src/authProvider.ts:40-53 | after a login with a token, the token is stored and checks succeed |
| ClientAuth.LogoutThenCheck | packages/react-admin-provider/src/authProvider.ts:44-53 | after a logout, checks fail |
| ClientAuth.FailedLoginKeepsSession | packages/react-admin-provider/src/authProvider.ts:37-43 | a failed login leaves checks answering as before |
| ClientAuth.LoginWithoutTokenStoresUndefined | packages/react-admin-provider/src/authProvider.ts:40-42 | a 2xx reply without a token stores "undefined", which checks accept |

## Left out

- External libraries are parameters, not models. This covers Node's table of HTTP status phrases, `jsonwebtoken`, `bcrypt`, `hasha`, `micromatch`, RSA signing, base64, `JSON`, `querystring`, `encodeURIComponent`, `got`, Octokit and `fetch`. Their laws are stated only where a lemma needs them.
- Network calls are pure functions of the request. A service asked twice gives the same answer, so timing, retries and changing upstream state are not modelled.
- `Promise.all` fan-out (loading pages, reading entries, commit actions) runs sequentially in index order. Interleavings of concurrent file writes are not modelled.
- JavaScript numbers are integers; NaN, infinities and fractions are not modelled.
- Property access reads the own fields of plain objects. Prototype members are not modelled, such as `length` on arrays or `toString`.
- Strict equality never holds between objects or arrays. Reference identity is not modelled.
- Express is not modelled: route registration, body parsing and the mutation of `res`. Handlers return a response value, and the error handler returns the response it sends.
- Gateway.TreeRoute: an absent `path`, `page` or `ref` query parameter reaches the backend as "" instead of `undefined`. The model therefore misses two behaviours. The filesystem backend's `path.join(cwd, undefined)` throws a TypeError, answered 500. The GitHub `tree` compares entry paths with the string "undefined" and lists nothing.
- Gateway.ReadFileRoute: an absent `ref` reaches the backend as "" instead of `undefined`.
- Gateway.ListPipelinesRoute: an absent `ref` reaches the backend as "" instead of `undefined`.
- Gateway.TriggerPipelineRoute: an absent `ref` reaches the backend as "" instead of `undefined`.
- `readFileRaw` returns a download stream in the source. The model returns the stream's URL.
- `defaultGitlabOptions.timeout` is never applied, because the options object replaces the defaults as a whole. The model forwards the given timeout as written.
- The GitHub `tree` ignores the page and relays no headers, as in the source.
- The `createCommit({})` call on github.ts:188 is neither awaited nor used, and it is not modelled. Its rejection, which may surface as an unhandled promise rejection, is not modelled either.
- A `fetch` reply whose JSON body does not parse is not modelled. Replies carry their parsed body.
- A token-cache expiry date that does not parse is modelled as "no expiry known", which is never usable.
- Reading `err.code` on a null or undefined rejection of the identity service is not modelled: every rejection carries a code.
- `console.error` in the client provider is not modelled.
- The filesystem backend's `cwd` is taken as the root of the modelled disk. A relative `cwd`, resolved against the process's working directory, is not modelled.
- The data provider that attaches the token to data requests is not part of this model.
- `fetchAdvanced.ts` is not part of this model.
- Omnipartners.VerdictListed: the "found iff listed" equivalence is proved only for entities that are plain objects. Arrays, strings and other values in the file are not covered.
- Omnipartners.VerdictOrderFree: order independence is proved only for entities that are plain objects. With a nullish entity, whether the search throws depends on where that entity sits.

## Where the code and its description differ

The model follows the code in the cases below. Two parts of the model use a corrected version instead, and Findings lists both versions: the GitHub file lookup under `ReadFile`, `ReadFileRaw`, `HeadFile` and `AsBackend`, and the filesystem `Tree` listing.

- **Expected token-verification errors.** Expired, malformed or wrongly signed tokens become 400 Bad Request (base.ts:36-48), not 401.
- **Deleting a missing file.** It surfaces the raw ENOENT error from the operating system. The error handler passes that error on, so it is not a 404.
- **Listing a missing directory.** It fails instead of answering an empty list (see Findings).

## Findings

| source | as written | input that shows it | evidently intended | confidence | as-written member | corrected member |
|---|---|---|---|---|---|---|
| packages/server/src/backend/filesystem.ts:79-86 | the guard `!exists && !stat.isDirectory` never holds, because `stat` throws for a missing path and `isDirectory` is referenced, not called | `tree` of `missing` on an empty disk fails with ENOENT | an empty listing for a missing path or a non-directory | high, not executed | Filesystem.TreeOfMissingDirFails | Filesystem.BackendFilesystem.Tree |
| packages/server/src/backend/github.ts:86-90 | `repos.getContent` is called without `ref`, so the default branch is read | `a.json` differs between `dev` and the default branch; reading it at `dev` returns the default branch's file | read the file at the requested ref | medium, not executed | Github.ReadsDefaultBranch | Github.GetContent |
| packages/server/src/backend/github.ts:72-90 | `tree` strips the base path from listed files, but `getContent` looks them up without adding it back | base path `content` and a single file `content/a.json`: `tree` lists `a.json`, and reading `a.json` is not found | listed files can be read back, as `commit` prepends the base path | medium, not executed | Github.ListedFileNotReadable | Github.ListedFileReadable |
