/** The GitHub backend: listings and file reads go through the GitHub REST
    API (`octokit`, a parameter here), commits and pipelines through the
    GitLab-style `got` calls the GitLab backend also makes. An optional base
    path is prepended to committed paths and stripped from listed ones. */
module Github {

  import opened Wrappers
  import opened Js
  import opened Common
  import opened Strings
  import opened Paths
  import opened Interface
  import Gitlab
  import Loader

  datatype GithubOptions = GithubOptions(
    host: Option<string>,
    timeout: Option<int>,
    version: Option<string>,
    privateToken: string,
    basePath: Option<string>,
    token: string)

  /** The options the `got` calls read, which are GitLab's. */
  function AsGitlab(o: GithubOptions): Gitlab.GitlabOptions
  {
    Gitlab.GitlabOptions(o.host, o.timeout, o.version, o.privateToken)
  }

  // ----- base path -----

  /** `appendBasePath`: `path.join(basePath, p)` when a base path is set. */
  function AppendBasePath(basePath: Option<string>, p: string): string
  {
    if Given(basePath) then PathJoin(basePath.value, p) else p
  }

  /** `removeBasePath`: the first occurrence of the base path (of "" when it
      is unset) is removed, then one leading slash. */
  function RemoveBasePath(basePath: Option<string>, p: string): string
  {
    StripLeadingSlash(RemoveFirst(p, if basePath.Some? then basePath.value else ""))
  }

  /** Stripping the base path undoes prepending it, for a canonical relative
      path and a canonical (or unset) base path. */
  lemma BasePathRoundTrip(basePath: Option<string>, p: string)
    requires !Given(basePath) || Canonical(basePath.value)
    requires Canonical(p)
    ensures AppendBasePath(basePath, p) == if Given(basePath) then basePath.value + "/" + p else p
    ensures RemoveBasePath(basePath, AppendBasePath(basePath, p)) == p
  {
    SplitLeading(p, '/');
    if Given(basePath) {
      var b := basePath.value;
      JoinCanonical(b, p);
      assert b + "/" + p == b + ("/" + p);
      RemoveFirstPrefix(b, "/" + p);
    } else {
      RemoveFirstPrefix("", p);
    }
  }

  // ----- the GitHub API -----

  /** One entry of a recursive git tree; path and sha may be missing. */
  datatype GitEntry = GitEntry(path: Option<string>, sha: Option<string>, kind: string)

  /** What the contents API answers: a file object (which has `content`),
      or something else (a directory listing, a symlink, a submodule). */
  datatype RepoContent =
    | FileContent(sha: string, content: string, encoding: string, url: string, size: int, downloadUrl: Option<string>)
    | NotAFile

  /** `git.getTree` (owner, repo, tree_sha, recursive) and `repos.getContent`
      (owner, repo, path, optional ref; without one, the default branch). */
  datatype Octokit = Octokit(
    getTree: (string, Option<string>, string) -> Res<seq<GitEntry>>,
    getContent: (string, Option<string>, string, Option<string>) -> Res<RepoContent>)

  /** `projectId.split("/")[0]`. */
  function Owner(projectId: string): string
  {
    Split(projectId, '/')[0]
  }

  /** `projectId.split("/")[1]`, undefined when there is no slash. */
  function RepoName(projectId: string): Option<string>
  {
    var parts := Split(projectId, '/');
    if |parts| > 1 then Some(parts[1]) else None
  }

  /** "owner/repo" names the owner and the repository. */
  lemma OwnerRepo(owner: string, repo: string)
    requires '/' !in owner && '/' !in repo
    ensures Owner(owner + "/" + repo) == owner
    ensures RepoName(owner + "/" + repo) == Some(repo)
  {
    assert owner + "/" + repo == owner + ['/'] + repo;
    SplitAt(owner, '/', repo);
    SplitNone(repo, '/');
  }

  const NOT_IN_TREE := "file not found sin tree"
  const NOT_A_FILE := "file not found or invalid"
  const NO_DOWNLOAD_LINK := "file does not have download link"

  /** `tree.find(f => f.path === file)`. */
  function FindEntry(entries: seq<GitEntry>, file: string): (r: Option<GitEntry>)
    ensures r.None? <==> forall i :: 0 <= i < |entries| ==> entries[i].path != Some(file)
    ensures r.Some? ==> exists i :: (
      && 0 <= i < |entries| && entries[i] == r.value && entries[i].path == Some(file)
      && forall j :: 0 <= j < i ==> entries[j].path != Some(file))
  {
    if entries == [] then None
    else if entries[0].path == Some(file) then Some(entries[0])
    else
      var r := FindEntry(entries[1..], file);
      if r.Some? then
        var i :| 0 <= i < |entries[1..]| && entries[1..][i] == r.value && entries[1..][i].path == Some(file)
          && forall j :: 0 <= j < i ==> entries[1..][j].path != Some(file);
        assert entries[i + 1] == r.value;
        r
      else r
  }

  /** The tree at `ref` reads, and lists `treePath` with a sha. */
  predicate InTree(api: Octokit, projectId: string, ref: string, treePath: string)
  {
    var tree := api.getTree(Owner(projectId), RepoName(projectId), ref);
    tree.Ok? && FindEntry(tree.value, treePath).Some? && Given(FindEntry(tree.value, treePath).value.sha)
  }

  /** The lookup `getContent` performs: the file must be an entry, with a
      sha, of the tree at `ref`, and the contents API must answer with a file
      object for `contentPath` at `contentRef`. */
  function Lookup(api: Octokit, projectId: string, ref: string, treePath: string,
                  contentPath: string, contentRef: Option<string>): (r: Res<RepoContent>)
    ensures api.getTree(Owner(projectId), RepoName(projectId), ref).Err? ==>
      r == Err(api.getTree(Owner(projectId), RepoName(projectId), ref).error)
    ensures api.getTree(Owner(projectId), RepoName(projectId), ref).Ok? ==>
      var found := FindEntry(api.getTree(Owner(projectId), RepoName(projectId), ref).value, treePath);
      (found.None? || !Given(found.value.sha)) ==> r == Err(NotFound(NOT_IN_TREE))
    ensures r.Ok? ==> (
      && r.value.FileContent?
      && api.getContent(Owner(projectId), RepoName(projectId), contentPath, contentRef) == Ok(r.value))
    ensures r.Ok? ==> (
      && api.getTree(Owner(projectId), RepoName(projectId), ref).Ok?
      && exists e :: e in api.getTree(Owner(projectId), RepoName(projectId), ref).value && e.path == Some(treePath))
    ensures (api.getContent(Owner(projectId), RepoName(projectId), contentPath, contentRef) == Ok(NotAFile)) ==>
      r.Err?
    // A file listed in the tree: the contents API's answer decides.
    ensures InTree(api, projectId, ref, treePath) ==>
      var c := api.getContent(Owner(projectId), RepoName(projectId), contentPath, contentRef);
      && (c.Err? ==> r == Err(c.error))
      && (c == Ok(NotAFile) ==> r == Err(NotFound(NOT_A_FILE)))
      && (c.Ok? && c.value.FileContent? ==> r == c)
  {
    var owner := Owner(projectId);
    var repo := RepoName(projectId);
    var tree :- api.getTree(owner, repo, ref);
    var found := FindEntry(tree, treePath);
    if found.None? || !Given(found.value.sha) then Err(NotFound(NOT_IN_TREE))
    else
      var content :- api.getContent(owner, repo, contentPath, contentRef);
      if content.NotAFile? then Err(NotFound(NOT_A_FILE)) else Ok(content)
  }

  /** `getContent` as written: the file is looked up without the base path
      and its content is requested without the ref, that is, from the
      default branch. */
  function GetContentAsWritten(api: Octokit, q: FileQuery): (r: Res<RepoContent>)
    // The file is looked up, as given, in the tree at the ref ...
    ensures api.getTree(Owner(q.projectId), RepoName(q.projectId), q.ref).Err? ==>
      r == Err(api.getTree(Owner(q.projectId), RepoName(q.projectId), q.ref).error)
    ensures r.Ok? ==>
      && api.getTree(Owner(q.projectId), RepoName(q.projectId), q.ref).Ok?
      && exists e :: e in api.getTree(Owner(q.projectId), RepoName(q.projectId), q.ref).value && e.path == Some(q.file)
    // ... but the content answered is the default branch's, whatever the ref.
    ensures r.Ok? ==> r.value.FileContent? && api.getContent(Owner(q.projectId), RepoName(q.projectId), q.file, None) == Ok(r.value)
    // Conversely, a file listed in the tree at the ref is answered with the
    // default branch's file, or that request's error.
    ensures InTree(api, q.projectId, q.ref, q.file) ==>
      var c := api.getContent(Owner(q.projectId), RepoName(q.projectId), q.file, None);
      && (c.Err? ==> r == Err(c.error))
      && (c == Ok(NotAFile) ==> r == Err(NotFound(NOT_A_FILE)))
      && (c.Ok? && c.value.FileContent? ==> r == c)
  {
    Lookup(api, q.projectId, q.ref, q.file, q.file, None)
  }

  /** `getContent`, with the base path prepended to the file as `commit`
      does, and the content requested at the ref whose tree was checked. */
  function GetContent(o: GithubOptions, api: Octokit, q: FileQuery): (r: Res<RepoContent>)
    ensures r.Ok? ==> r.value.FileContent? && api.getContent(Owner(q.projectId), RepoName(q.projectId),
      AppendBasePath(o.basePath, q.file), Some(q.ref)) == Ok(r.value)
    // Tree errors propagate, and a file missing from the tree is not found.
    ensures var tree := api.getTree(Owner(q.projectId), RepoName(q.projectId), q.ref);
      && (tree.Err? ==> r == Err(tree.error))
      && (tree.Ok? && !InTree(api, q.projectId, q.ref, AppendBasePath(o.basePath, q.file)) ==> r == Err(NotFound(NOT_IN_TREE)))
    // A file listed in the tree is answered with its content at the ref, or that request's error.
    ensures InTree(api, q.projectId, q.ref, AppendBasePath(o.basePath, q.file)) ==>
      var c := api.getContent(Owner(q.projectId), RepoName(q.projectId), AppendBasePath(o.basePath, q.file), Some(q.ref));
      && (c.Err? ==> r == Err(c.error))
      && (c == Ok(NotAFile) ==> r == Err(NotFound(NOT_A_FILE)))
      && (c.Ok? && c.value.FileContent? ==> r == c)
  {
    var path := AppendBasePath(o.basePath, q.file);
    Lookup(api, q.projectId, q.ref, path, path, Some(q.ref))
  }

  // ----- tree -----

  /** The entries `tree` keeps: blobs with a path and a sha, under the
      requested path. */
  predicate Listed(e: GitEntry, treePath: string)
  {
    e.kind == "blob" && Given(e.path) && StartsWith(e.path.value, treePath) && Given(e.sha)
  }

  /** The listing entry of a kept tree entry. */
  function ListedAs(basePath: Option<string>, e: GitEntry): TreeFile
    requires e.path.Some? && e.sha.Some?
  {
    TreeFile(e.sha.value, RemoveBasePath(basePath, e.path.value))
  }

  /** What one tree entry contributes to the listing. */
  function Keep(basePath: Option<string>, e: GitEntry, treePath: string): (r: seq<TreeFile>)
    ensures |r| <= 1
    ensures r != [] <==> Listed(e, treePath)
    ensures r != [] ==> r == [ListedAs(basePath, e)]
  {
    if Listed(e, treePath) then [ListedAs(basePath, e)] else []
  }

  /** The `map`/`filter` pipeline of `tree`. */
  function TreeListing(basePath: Option<string>, entries: seq<GitEntry>, treePath: string): (r: seq<TreeFile>)
    ensures |r| <= |entries|
    decreases |entries|
  {
    if entries == [] then []
    else Keep(basePath, entries[0], treePath) + TreeListing(basePath, entries[1..], treePath)
  }

  /** A listing entry comes from a kept tree entry, and every kept tree
      entry is listed. */
  lemma {:induction false} TreeListingMembers(basePath: Option<string>, entries: seq<GitEntry>, treePath: string)
    ensures forall t :: t in TreeListing(basePath, entries, treePath) <==>
      exists e :: e in entries && Listed(e, treePath) && t == ListedAs(basePath, e)
    decreases |entries|
  {
    if entries != [] {
      TreeListingMembers(basePath, entries[1..], treePath);
      forall t ensures t in TreeListing(basePath, entries, treePath) <==>
        exists e :: e in entries && Listed(e, treePath) && t == ListedAs(basePath, e)
      {
        if t in TreeListing(basePath, entries, treePath) && !(Listed(entries[0], treePath) && t == ListedAs(basePath, entries[0])) {
          assert t in TreeListing(basePath, entries[1..], treePath);
        }
        if exists e :: e in entries && Listed(e, treePath) && t == ListedAs(basePath, e) {
          var e :| e in entries && Listed(e, treePath) && t == ListedAs(basePath, e);
          if e != entries[0] {
            assert e in entries[1..];
          }
        }
      }
    }
  }

  /** The listing keeps the order of the tree: listing a concatenation lists
      each part in turn. */
  lemma {:induction false} TreeListingAppend(basePath: Option<string>, a: seq<GitEntry>, b: seq<GitEntry>, treePath: string)
    ensures TreeListing(basePath, a + b, treePath) == TreeListing(basePath, a, treePath) + TreeListing(basePath, b, treePath)
    decreases |a|
  {
    if a == [] {
      assert a + b == b;
    } else {
      assert (a + b)[0] == a[0];
      assert (a + b)[1..] == a[1..] + b;
      TreeListingAppend(basePath, a[1..], b, treePath);
    }
  }

  /** `tree`: the page is ignored and no headers are relayed. */
  function Tree(o: GithubOptions, api: Octokit, q: TreeQuery): (r: Res<Reply<seq<TreeFile>>>)
    ensures var t := api.getTree(Owner(q.projectId), RepoName(q.projectId), q.ref);
      && (t.Err? ==> r == Err(t.error))
      && (t.Ok? ==> r.Ok? && r.value.headers == map[])
      // The body is the filtered listing of the tree.
      && (t.Ok? ==> r.value.body == TreeListing(o.basePath, t.value, q.path))
  {
    var entries :- api.getTree(Owner(q.projectId), RepoName(q.projectId), q.ref);
    Ok(Reply(map[], TreeListing(o.basePath, entries, q.path)))
  }

  // ----- files -----

  /** The metadata headers of `readFile` and `headFile`. */
  function FileHeaders(c: RepoContent): (h: Headers)
    requires c.FileContent?
    ensures "X-Gitlab-Commit-Id" in h && h["X-Gitlab-Commit-Id"] == ""
    ensures "X-Gitlab-Blob-Id" in h && h["X-Gitlab-Blob-Id"] == c.sha
  {
    map["X-Gitlab-Blob-Id" := c.sha, "X-Gitlab-Commit-Id" := "",
        "X-Gitlab-Content-Sha256" := c.sha, "X-Gitlab-Size" := IntToString(c.size)]
  }

  /** The `readFile` reply for a file object: the content with its line
      breaks removed. */
  function FileReply(c: RepoContent): (r: Reply<BackendFile>)
    requires c.FileContent?
    ensures r.body.content == Without(c.content, '\n')
    ensures r.body.blobId == c.sha
    // The encoding is passed through, and the API URL stands as the file path.
    ensures r.body.encoding == c.encoding && r.body.filePath == c.url
    ensures r.headers == FileHeaders(c)
    ensures "X-Gitlab-Commit-Id" in r.headers && r.headers["X-Gitlab-Commit-Id"] == ""
  {
    SplitJoinEmpty(c.content, '\n');
    Reply(FileHeaders(c), BackendFile(c.sha, Join(Split(c.content, '\n'), ""), c.encoding, c.url))
  }

  /** Removing line breaks leaves no line break and nothing else missing. */
  lemma {:induction false} WithoutDropsOnly(s: string, c: char)
    ensures c !in Without(s, c)
    ensures forall k :: 0 <= k < |s| && s[k] != c ==> s[k] in Without(s, c)
    decreases |s|
  {
    if s != [] {
      WithoutDropsOnly(s[1..], c);
      forall k | 0 <= k < |s| && s[k] != c ensures s[k] in Without(s, c) {
        if k > 0 {
          assert s[k] == s[1..][k - 1];
        }
      }
    }
  }

  function ReadFile(o: GithubOptions, api: Octokit, q: FileQuery): (r: Res<Reply<BackendFile>>)
    ensures GetContent(o, api, q).Err? ==> r == Err(GetContent(o, api, q).error)
    ensures r.Ok? ==> GetContent(o, api, q).Ok? && r.value == FileReply(GetContent(o, api, q).value)
    ensures GetContent(o, api, q).Ok? ==> r == Ok(FileReply(GetContent(o, api, q).value))
  {
    var content :- GetContent(o, api, q);
    Ok(FileReply(content))
  }

  /** `readFileRaw`: the download URL whose stream is returned. */
  function ReadFileRaw(o: GithubOptions, api: Octokit, q: FileQuery): (r: Res<string>)
    ensures GetContent(o, api, q).Ok? && !Given(GetContent(o, api, q).value.downloadUrl) ==>
      r == Err(BadRequest(NO_DOWNLOAD_LINK))
    ensures r.Ok? ==> GetContent(o, api, q).Ok? && GetContent(o, api, q).value.downloadUrl == Some(r.value) && r.value != ""
    ensures GetContent(o, api, q).Err? ==> r == Err(GetContent(o, api, q).error)
    ensures GetContent(o, api, q).Ok? && Given(GetContent(o, api, q).value.downloadUrl) ==>
      r == Ok(GetContent(o, api, q).value.downloadUrl.value)
  {
    var content :- GetContent(o, api, q);
    if !Given(content.downloadUrl) then Err(BadRequest(NO_DOWNLOAD_LINK)) else Ok(content.downloadUrl.value)
  }

  /** `headFile`: the metadata headers, for a file with a download link. */
  function HeadFile(o: GithubOptions, api: Octokit, q: FileQuery): (r: Res<Headers>)
    ensures GetContent(o, api, q).Ok? && !Given(GetContent(o, api, q).value.downloadUrl) ==>
      r == Err(BadRequest(NO_DOWNLOAD_LINK))
    ensures r.Ok? <==> GetContent(o, api, q).Ok? && Given(GetContent(o, api, q).value.downloadUrl)
    ensures r.Ok? ==> r.value == FileHeaders(GetContent(o, api, q).value)
  {
    var content :- GetContent(o, api, q);
    if !Given(content.downloadUrl) then Err(BadRequest(NO_DOWNLOAD_LINK)) else Ok(FileHeaders(content))
  }

  /** The backend as the loader sees it. */
  function AsBackend(o: GithubOptions, api: Octokit): (b: Backend)
    ensures forall q :: b.tree(q) == Tree(o, api, q)
    ensures forall q :: b.readFile(q) == ReadFile(o, api, q)
    // Listings never announce a page count.
    ensures forall q :: b.tree(q).Ok? ==> b.tree(q).value.headers == map[]
  {
    Backend(q => Tree(o, api, q), q => ReadFile(o, api, q))
  }

  /** Listings carry no page count, so `loadFileList` over this backend
      reads page 1 only. */
  lemma ListsOnePage(o: GithubOptions, api: Octokit, lo: Loader.ListOptions)
    requires api.getTree(Owner(lo.projectId), RepoName(lo.projectId), lo.ref).Ok?
    ensures Loader.AnnouncedPages(AsBackend(o, api), lo) == Ok(1)
  {
    var q := Loader.PageQuery(lo, 1);
    assert AsBackend(o, api).tree(q) == Tree(o, api, q);
  }

  // ----- commit, pipelines, branches -----

  /** The actions with the base path prepended to each file path. */
  function Rebased(basePath: Option<string>, actions: seq<CommitAction>): (r: seq<CommitAction>)
    ensures |r| == |actions|
    ensures forall i :: 0 <= i < |r| ==>
      r[i] == actions[i].(filePath := AppendBasePath(basePath, actions[i].filePath))
  {
    seq(|actions|, i requires 0 <= i < |actions| => actions[i].(filePath := AppendBasePath(basePath, actions[i].filePath)))
  }

  /** Stripping the base path from a rebased action gives back its path, and
      nothing else about an action changes. */
  lemma RebasedRoundTrip(basePath: Option<string>, actions: seq<CommitAction>, i: nat)
    requires !Given(basePath) || Canonical(basePath.value)
    requires i < |actions| && Canonical(actions[i].filePath)
    ensures RemoveBasePath(basePath, Rebased(basePath, actions)[i].filePath) == actions[i].filePath
    ensures Rebased(basePath, actions)[i].(filePath := actions[i].filePath) == actions[i]
  {
    BasePathRoundTrip(basePath, actions[i].filePath);
  }

  /** `commit`: the GitLab commit request, with the actions rebased. */
  function Commit(o: GithubOptions, got: Gitlab.Got, enc: Gitlab.UrlEncoders, projectId: string, body: CommitBody): (r: Res<Reply<JsValue>>)
    ensures var req := Gitlab.RequestFor(AsGitlab(o), enc, Gitlab.CommitOp(projectId, body.(actions := Rebased(o.basePath, body.actions))));
      && req.verb == Gitlab.Post
      && req.body == Some(CommitBody(Rebased(o.basePath, body.actions), body.branch, body.commitMessage))
      && req.headers == map["Private-Token" := o.privateToken]
      && (r.Err? <==> got(req).Err?)
      && (r.Ok? ==> r.value.body == got(req).value.body)
  {
    Gitlab.Send(AsGitlab(o), got, enc, Gitlab.CommitOp(projectId, body.(actions := Rebased(o.basePath, body.actions))))
  }

  /** Without a base path the commit is the GitLab backend's commit. */
  lemma CommitWithoutBasePath(o: GithubOptions, got: Gitlab.Got, enc: Gitlab.UrlEncoders, projectId: string, body: CommitBody)
    requires !Given(o.basePath)
    ensures Commit(o, got, enc, projectId, body) == Gitlab.Send(AsGitlab(o), got, enc, Gitlab.CommitOp(projectId, body))
  {
    assert Rebased(o.basePath, body.actions) == body.actions;
  }

  /** `listPipelines`, `triggerPipeline` and `getPipeline` are the GitLab
      backend's. */
  function Pipeline(o: GithubOptions, got: Gitlab.Got, enc: Gitlab.UrlEncoders, call: Gitlab.GitlabCall): (r: Res<Reply<JsValue>>)
    requires call.ListPipelinesOp? || call.TriggerPipelineOp? || call.GetPipelineOp?
    ensures r == Gitlab.Send(AsGitlab(o), got, enc, call)
    ensures r.Ok? ==> forall k :: k in r.value.headers ==> k in Gitlab.BASE_PICK_HEADERS
  {
    Gitlab.Send(AsGitlab(o), got, enc, call)
  }

  /** The request of `showBranch`: the ref both in the path and in the query. */
  function BranchRequest(o: GithubOptions, enc: Gitlab.UrlEncoders, projectId: string, ref: string): (r: Gitlab.Request)
    ensures r.verb == Gitlab.Get && r.body.None?
    ensures r.headers == map["Private-Token" := o.privateToken]
  {
    Gitlab.Request(
      Gitlab.Get,
      Gitlab.BaseUrl(o.host, o.version),
      "/projects/" + enc.component(projectId) + "/repository/branches/" + enc.component(ref)
        + "?" + Gitlab.Query(enc, [("ref", ref)]),
      map["Private-Token" := o.privateToken],
      None,
      o.timeout)
  }

  function ShowBranch(o: GithubOptions, got: Gitlab.Got, enc: Gitlab.UrlEncoders, projectId: string, ref: string): (r: Res<Reply<JsValue>>)
    ensures r.Ok? ==> forall k :: k in r.value.headers ==> k in Gitlab.BASE_PICK_HEADERS
    ensures r.Err? <==> got(BranchRequest(o, enc, projectId, ref)).Err?
  {
    Gitlab.Relay(got(BranchRequest(o, enc, projectId, ref)), Gitlab.BASE_PICK_HEADERS)
  }

  // ----- what the as-written lookup gets wrong -----

  /** A repository whose default branch and `dev` branch both hold
      `a.json`, with different blobs. */
  function TwoBranches(): Octokit
  {
    Octokit(
      (owner, repo, sha) => Ok([GitEntry(Some("a.json"), Some(if sha == "dev" then "d1" else "m1"), "blob")]),
      (owner, repo, path, ref) =>
        Ok(FileContent(if ref == Some("dev") then "d1" else "m1", "", "base64", path, 0, None)))
  }

  /** As written, reading `a.json` at `dev` returns the default branch's
      blob; with the ref passed on, the `dev` blob. */
  lemma ReadsDefaultBranch()
    ensures GetContentAsWritten(TwoBranches(), FileQuery("o/r", "dev", "a.json")) == Ok(FileContent("m1", "", "base64", "a.json", 0, None))
    ensures GetContent(GithubOptions(None, None, None, "", None, ""), TwoBranches(), FileQuery("o/r", "dev", "a.json"))
      == Ok(FileContent("d1", "", "base64", "a.json", 0, None))
  {
    OwnerRepo("o", "r");
  }

  /** A repository whose only file is `content/a.json`, as a commit of
      `a.json` under the base path `content` leaves it. */
  function UnderBase(): Octokit
  {
    Octokit(
      (owner, repo, sha) => Ok([GitEntry(Some("content/a.json"), Some("s"), "blob")]),
      (owner, repo, path, ref) =>
        if path == "content/a.json" then Ok(FileContent("s", "", "base64", path, 0, None)) else Ok(NotAFile))
  }

  const CONTENT_BASE := GithubOptions(None, None, None, "", Some("content"), "")

  /** Under the base path `content`, `tree` lists the file as `a.json`. */
  lemma ListedWithoutBase()
    ensures Tree(CONTENT_BASE, UnderBase(), TreeQuery("o/r", "main", "", "1")) == Ok(Reply(map[], [TreeFile("s", "a.json")]))
  {
    var e := GitEntry(Some("content/a.json"), Some("s"), "blob");
    assert UnderBase().getTree(Owner("o/r"), RepoName("o/r"), "main") == Ok([e]);
    assert "content/a.json" == "content" + ("/" + "a.json");
    ListedUnderBase("content", "a.json", e);
  }

  /** A blob stored at `base/rest` is listed from the top as `rest`: the
      listing drops the base path. */
  lemma ListedUnderBase(basePath: string, rest: string, e: GitEntry)
    requires e.kind == "blob" && Given(e.sha) && e.path == Some(basePath + ("/" + rest))
    requires rest == "" || rest[0] != '/'
    ensures TreeListing(Some(basePath), [e], "") == [TreeFile(e.sha.value, rest)]
  {
    assert StartsWith(e.path.value, "");
    RemoveFirstPrefix(basePath, "/" + rest);
    assert ("/" + rest)[1..] == rest;
    assert [e][1..] == [];
  }

  /** As written, reading the listed `a.json` back fails. */
  lemma ListedFileNotReadable()
    ensures GetContentAsWritten(UnderBase(), FileQuery("o/r", "main", "a.json")) == Err(NotFound(NOT_IN_TREE))
  {
    var e := GitEntry(Some("content/a.json"), Some("s"), "blob");
    assert UnderBase().getTree(Owner("o/r"), RepoName("o/r"), "main") == Ok([e]);
    assert FindEntry([e], "a.json") == None;
  }

  /** With the base path prepended, every file `tree` lists under a
      canonical base path is found again by `getContent` at the same ref:
      reading the listed path returns what the contents API holds for the
      entry's full path. */
  lemma ListedFileReadable(o: GithubOptions, api: Octokit, q: TreeQuery, e: GitEntry, rest: string)
    requires Given(o.basePath) && Canonical(o.basePath.value) && Canonical(rest)
    requires var t := api.getTree(Owner(q.projectId), RepoName(q.projectId), q.ref);
      && t.Ok? && e in t.value && Listed(e, q.path) && e.path.value == o.basePath.value + "/" + rest
      && forall x :: x in t.value && x.path == e.path ==> x == e
    requires api.getContent(Owner(q.projectId), RepoName(q.projectId), e.path.value, Some(q.ref)).Ok?
    requires api.getContent(Owner(q.projectId), RepoName(q.projectId), e.path.value, Some(q.ref)).value.FileContent?
    ensures ListedAs(o.basePath, e).path == rest
    ensures ListedAs(o.basePath, e) in Tree(o, api, q).value.body
    ensures GetContent(o, api, FileQuery(q.projectId, q.ref, rest))
      == api.getContent(Owner(q.projectId), RepoName(q.projectId), e.path.value, Some(q.ref))
  {
    BasePathRoundTrip(o.basePath, rest);
    var t := api.getTree(Owner(q.projectId), RepoName(q.projectId), q.ref).value;
    TreeListingMembers(o.basePath, t, q.path);
    var found := FindEntry(t, e.path.value);
    assert found == Some(e);
  }
}
