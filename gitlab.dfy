/** The GitLab backend: every operation is one call to the GitLab REST API
    (`got`, a parameter here), addressed by URL-encoded project id, with
    the private token as a header; the upstream body is relayed as it is and
    the upstream headers through a whitelist. */
module Gitlab {

  import opened Wrappers
  import opened Js
  import opened Common
  import opened Strings
  import opened Interface

  /** Upstream headers relayed by every operation. */
  const BASE_PICK_HEADERS: seq<string> := [
    "ratelimit-limit",
    "ratelimit-observed",
    "ratelimit-remaining",
    "ratelimit-reset",
    "ratelimit-resettime",
    "x-request-id",
    "x-runtime",
    "x-next-page",
    "x-page",
    "x-per-page",
    "x-prev-page",
    "x-total",
    "x-total-pages"
  ]

  /** The file metadata headers `readFile` relays besides the base ones. */
  const FILE_PICK_HEADERS: seq<string> := [
    "x-gitlab-blob-id",
    "x-gitlab-commit-id",
    "x-gitlab-content-sha256",
    "x-gitlab-encoding",
    "x-gitlab-file-name",
    "x-gitlab-file-path",
    "x-gitlab-last-commit-id",
    "x-gitlab-ref",
    "x-gitlab-size"
  ]

  const DEFAULT_HOST := "https://gitlab.com"
  const DEFAULT_VERSION := "v4"

  datatype GitlabOptions = GitlabOptions(
    host: Option<string>,
    timeout: Option<int>,
    version: Option<string>,
    privateToken: string)

  datatype Method = Get | Post

  /** What is handed to `got`: method, base URL, path with query string,
      request headers, JSON body and timeout. */
  datatype Request = Request(
    verb: Method,
    baseUrl: string,
    path: string,
    headers: Headers,
    body: Option<CommitBody>,
    timeout: Option<int>)

  /** `got` with `json: true`: the upstream reply, or an error (an error
      status rejects with an error carrying the upstream response). */
  type Got = Request -> Res<Reply<JsValue>>

  /** `encodeURIComponent` and the escaping `querystring.stringify` applies. */
  datatype UrlEncoders = UrlEncoders(component: string -> string, query: string -> string)

  /** `[host || default, "api", version || default].join("/")`. */
  function BaseUrl(host: Option<string>, version: Option<string>): (url: string)
    ensures url == (if Given(host) then host.value else DEFAULT_HOST) + "/api/"
      + (if Given(version) then version.value else DEFAULT_VERSION)
  {
    var parts := [if Given(host) then host.value else DEFAULT_HOST, "api",
                  if Given(version) then version.value else DEFAULT_VERSION];
    JoinThree(parts[0], parts[1], parts[2], "/");
    assert parts[0] + "/" + "api" + "/" + parts[2] == parts[0] + "/api/" + parts[2];
    Join(parts, "/")
  }

  /** An absent or empty host and version fall back to gitlab.com's v4 API. */
  lemma BaseUrlDefaults(host: Option<string>, version: Option<string>)
    requires !Given(host) && !Given(version)
    ensures BaseUrl(host, version) == "https://gitlab.com/api/v4"
  {
  }

  /** lodash `pick(headers, keys)`. */
  function Pick(headers: Headers, keys: seq<string>): Headers
  {
    map k | k in headers && k in keys :: headers[k]
  }

  /** `{ body, headers: pick(headers, keys) }` of an upstream reply; a failed
      call rejects with its own error. */
  function Relay(raw: Res<Reply<JsValue>>, keys: seq<string>): (r: Res<Reply<JsValue>>)
    ensures raw.Err? ==> r == raw
    ensures raw.Ok? ==> r.Ok? && r.value.body == raw.value.body
    ensures raw.Ok? ==> forall k :: k in r.value.headers <==> k in raw.value.headers && k in keys
    ensures raw.Ok? ==> forall k :: k in r.value.headers ==> r.value.headers[k] == raw.value.headers[k]
  {
    match raw
    case Err(e) => Err(e)
    case Ok(reply) => Ok(Reply(Pick(reply.headers, keys), reply.body))
  }

  /** `querystring.stringify` of string-valued pairs, in order. */
  function Query(enc: UrlEncoders, pairs: seq<(string, string)>): string
  {
    Join(QueryItems(enc, pairs), "&")
  }

  function QueryItems(enc: UrlEncoders, pairs: seq<(string, string)>): (items: seq<string>)
    ensures |items| == |pairs|
    ensures forall i :: 0 <= i < |pairs| ==> items[i] == pairs[i].0 + "=" + enc.query(pairs[i].1)
  {
    if pairs == [] then []
    else [pairs[0].0 + "=" + enc.query(pairs[0].1)] + QueryItems(enc, pairs[1..])
  }

  /** The operations of the backend. */
  datatype GitlabCall =
    | TreeOp(treeQuery: TreeQuery)
    | ReadOp(fileQuery: FileQuery)
    | CommitOp(commitProject: string, commitBody: CommitBody)
    | ListPipelinesOp(listProject: string, listRef: string)
    | TriggerPipelineOp(triggerProject: string, triggerRef: string)
    | GetPipelineOp(pipelineProject: string, id: string)

  function ProjectOf(call: GitlabCall): string
  {
    match call
    case TreeOp(q) => q.projectId
    case ReadOp(q) => q.projectId
    case CommitOp(p, _) => p
    case ListPipelinesOp(p, _) => p
    case TriggerPipelineOp(p, _) => p
    case GetPipelineOp(p, _) => p
  }

  /** What follows `/projects/<encoded project id>` in the request path. The
      pipeline id is interpolated as it is. */
  function Endpoint(enc: UrlEncoders, call: GitlabCall): (e: string)
    ensures |e| > 0 && e[0] == '/'
  {
    match call
    case TreeOp(q) =>
      "/repository/tree?" + Query(enc, [("page", q.page), ("path", q.path), ("ref", q.ref)])
    case ReadOp(q) =>
      "/repository/files/" + enc.component(q.file) + "?" + Query(enc, [("ref", q.ref)])
    case CommitOp(_, _) => "/repository/commits"
    case ListPipelinesOp(_, ref) => "/pipelines?" + Query(enc, [("ref", ref)])
    case TriggerPipelineOp(_, ref) => "/pipeline?" + Query(enc, [("ref", ref)])
    case GetPipelineOp(_, id) => "/pipelines/" + id
  }

  /** The request an operation sends. */
  function RequestFor(o: GitlabOptions, enc: UrlEncoders, call: GitlabCall): (r: Request)
    ensures r.headers == map["Private-Token" := o.privateToken]
    ensures r.baseUrl == BaseUrl(o.host, o.version) && r.timeout == o.timeout
    ensures r.verb == Post <==> call.CommitOp? || call.TriggerPipelineOp?
    ensures r.body.Some? <==> call.CommitOp?
    ensures call.CommitOp? ==> r.body == Some(call.commitBody)
  {
    Request(
      if call.CommitOp? || call.TriggerPipelineOp? then Post else Get,
      BaseUrl(o.host, o.version),
      "/projects/" + enc.component(ProjectOf(call)) + Endpoint(enc, call),
      map["Private-Token" := o.privateToken],
      if call.CommitOp? then Some(call.commitBody) else None,
      o.timeout)
  }

  /** The relayed headers: the file metadata headers for `readFile` only. */
  function PickFor(call: GitlabCall): seq<string>
  {
    if call.ReadOp? then BASE_PICK_HEADERS + FILE_PICK_HEADERS else BASE_PICK_HEADERS
  }

  /** One backend operation: the request, then the relayed reply. */
  function Send(o: GitlabOptions, got: Got, enc: UrlEncoders, call: GitlabCall): (r: Res<Reply<JsValue>>)
    ensures r.Err? <==> got(RequestFor(o, enc, call)).Err?
    // got's own error, an upstream HTTP error included, passes through unchanged.
    ensures got(RequestFor(o, enc, call)).Err? ==> r == Err(got(RequestFor(o, enc, call)).error)
    ensures r.Ok? ==> r.value.body == got(RequestFor(o, enc, call)).value.body
    ensures r.Ok? ==> forall k :: k in r.value.headers ==>
      k in BASE_PICK_HEADERS || (call.ReadOp? && k in FILE_PICK_HEADERS)
    // Every picked upstream header is kept, with its value.
    ensures r.Ok? ==> var upstream := got(RequestFor(o, enc, call)).value.headers;
      forall k :: k in upstream && (k in BASE_PICK_HEADERS || (call.ReadOp? && k in FILE_PICK_HEADERS)) ==>
        k in r.value.headers && r.value.headers[k] == upstream[k]
    // ... and every relayed header comes from upstream, with upstream's value.
    ensures r.Ok? ==> var upstream := got(RequestFor(o, enc, call)).value.headers;
      forall k :: k in r.value.headers ==> k in upstream && r.value.headers[k] == upstream[k]
  {
    Relay(got(RequestFor(o, enc, call)), PickFor(call))
  }

  /** `readFile` relays exactly what the other operations relay plus the
      `x-gitlab-*` file headers, and nothing else. */
  lemma FileHeadersExtendBase(h: Headers)
    ensures Pick(h, BASE_PICK_HEADERS) == map k | k in Pick(h, BASE_PICK_HEADERS + FILE_PICK_HEADERS) && k in BASE_PICK_HEADERS :: h[k]
    ensures forall k :: k in Pick(h, BASE_PICK_HEADERS + FILE_PICK_HEADERS) && k !in BASE_PICK_HEADERS ==>
      StartsWith(k, "x-gitlab-")
  {
    forall k | k in Pick(h, BASE_PICK_HEADERS + FILE_PICK_HEADERS) && k !in BASE_PICK_HEADERS
      ensures StartsWith(k, "x-gitlab-")
    {
      assert k in FILE_PICK_HEADERS;
    }
  }

  /** The second segment of every request path is the encoded project id,
      so an encoder that escapes "/" keeps the project id in one segment. */
  lemma RequestAddressed(o: GitlabOptions, enc: UrlEncoders, call: GitlabCall)
    requires '/' !in enc.component(ProjectOf(call))
    ensures var parts := Split(RequestFor(o, enc, call).path, '/');
      |parts| >= 3 && parts[0] == "" && parts[1] == "projects" && parts[2] == enc.component(ProjectOf(call))
  {
    var e := enc.component(ProjectOf(call));
    var ep := Endpoint(enc, call);
    var head := ['/'] + "projects" + ['/'];
    assert "/projects/" == head;
    assert ep == ['/'] + ep[1..];
    ConcatAssoc(head + e, ['/'], ep[1..]);
    assert RequestFor(o, enc, call).path == head + e + ['/'] + ep[1..];
    SplitPrefixPieces("projects", e, '/', ep[1..]);
  }

  /** The tree query carries the page, the path and the ref, in that order,
      each escaped; an escaping that leaves no "&" keeps them apart. */
  lemma TreeRequestQuery(enc: UrlEncoders, q: TreeQuery)
    requires '&' !in enc.query(q.page) && '&' !in enc.query(q.path)
    ensures Split(Query(enc, [("page", q.page), ("path", q.path), ("ref", q.ref)]), '&')
      == Split("page=" + enc.query(q.page), '&') + Split("path=" + enc.query(q.path), '&')
        + Split("ref=" + enc.query(q.ref), '&')
    ensures Split("page=" + enc.query(q.page), '&') == ["page=" + enc.query(q.page)]
    ensures Split("path=" + enc.query(q.path), '&') == ["path=" + enc.query(q.path)]
  {
    var a := "page=" + enc.query(q.page);
    var b := "path=" + enc.query(q.path);
    var c := "ref=" + enc.query(q.ref);
    QueryOfThree(enc, q);
    PairWithoutAmpersand("page", enc.query(q.page));
    PairWithoutAmpersand("path", enc.query(q.path));
    SplitJoinThree(a, b, c, '&');
    SplitNone(a, '&');
    SplitNone(b, '&');
  }

  /** The tree query is its three pairs joined with "&". */
  lemma QueryOfThree(enc: UrlEncoders, q: TreeQuery)
    ensures Query(enc, [("page", q.page), ("path", q.path), ("ref", q.ref)])
      == Join(["page=" + enc.query(q.page), "path=" + enc.query(q.path), "ref=" + enc.query(q.ref)], ['&'])
  {
    var items := QueryItems(enc, [("page", q.page), ("path", q.path), ("ref", q.ref)]);
    assert items[0] == "page=" + enc.query(q.page);
    assert items[1] == "path=" + enc.query(q.path);
    assert items[2] == "ref=" + enc.query(q.ref);
    assert items == ["page=" + enc.query(q.page), "path=" + enc.query(q.path), "ref=" + enc.query(q.ref)];
    assert "&" == ['&'];
  }

  /** A "key=value" pair whose key and value have no "&" has none. */
  lemma PairWithoutAmpersand(key: string, value: string)
    requires '&' !in key && '&' !in value
    ensures '&' !in key + "=" + value
  {
  }
}
