/** The HTTP gateway: the route handlers of the proxy and its error
    handler. Every handler runs the optional `before` hook first, then the
    authorization check, and only then calls the storage backend; the
    calls each handler makes are recorded as a trace of steps. */
module Gateway {

  import opened Wrappers
  import opened Js
  import opened Common
  import opened Interface

  /** The authentication backend: `authCheck(header)` resolves to the
      caller's auth data (truthy when authorized), `authLogin(body)` to a
      token or a falsy value. */
  datatype AuthBackend = AuthBackend(
    authCheck: string -> Res<JsValue>,
    authLogin: JsValue -> Res<JsValue>)

  /** The storage backend as the gateway sees it: bodies are relayed as they are. */
  datatype Service = Service(
    tree: TreeQuery -> Res<Reply<JsValue>>,
    readFile: FileQuery -> Res<Reply<JsValue>>,
    commit: (string, CommitBody) -> Res<Reply<JsValue>>,
    listPipelines: (string, string) -> Res<Reply<JsValue>>,
    triggerPipeline: (string, string) -> Res<Reply<JsValue>>,
    getPipeline: (string, string) -> Res<Reply<JsValue>>)

  /** The server options; the hooks are optional. `beforeCommit` may
      resolve to a replacement commit body. */
  datatype ServerOptions = ServerOptions(
    projectId: string,
    prefix: Option<string>,
    auth: AuthBackend,
    backend: Service,
    before: Option<BeforeData -> Res<()>>,
    beforeCommit: Option<(CommitBody, JsValue) -> Res<Option<CommitBody>>>)

  /** A backend request. */
  datatype ServiceCall =
    | TreeOf(treeQuery: TreeQuery)
    | ReadOf(fileQuery: FileQuery)
    | CommitOf(commitProject: string, commitBody: CommitBody)
    | ListPipelinesOf(listProject: string, listRef: string)
    | TriggerPipelineOf(triggerProject: string, triggerRef: string)
    | GetPipelineOf(pipelineProject: string, id: string)

  /** One thing a handler consulted, in order. */
  datatype Step =
    | RanBefore(data: BeforeData)
    | CheckedAuth(authorization: string)
    | LoggedIn(loginBody: JsValue)
    | RanBeforeCommit(proposed: CommitBody)
    | Called(call: ServiceCall)

  /** A handler's outcome (a response, or the error it threw) and its steps. */
  datatype Handled = Handled(result: Res<Response>, steps: seq<Step>)

  datatype Response = Response(status: int, headers: Headers, body: JsValue)

  const STATUS_OK := 200

  // ---------------------------------------------------------------------
  // The admission sequence shared by the data routes.
  // ---------------------------------------------------------------------

  function BeforeOutcome(o: ServerOptions, data: BeforeData): Res<()>
  {
    if o.before.Some? then o.before.value(data) else Ok(())
  }

  function BeforeSteps(o: ServerOptions, data: BeforeData): seq<Step>
  {
    if o.before.Some? then [RanBefore(data)] else []
  }

  /** The hook (if any) accepted, a header was sent, and `authCheck`
      resolved to a truthy value for it. */
  predicate Admitted(o: ServerOptions, data: BeforeData, authorization: Option<string>)
  {
    && BeforeOutcome(o, data).Ok?
    && Given(authorization)
    && o.auth.authCheck(authorization.value).Ok?
    && Truthy(o.auth.authCheck(authorization.value).value)
  }

  predicate CallsBackend(steps: seq<Step>)
  {
    exists k :: 0 <= k < |steps| && steps[k].Called?
  }

  predicate ChecksAuth(steps: seq<Step>)
  {
    exists k :: 0 <= k < |steps| && steps[k].CheckedAuth?
  }

  /** `before`, then the authorization check: the auth data on admission,
      otherwise the error the handler throws. */
  function Admit(o: ServerOptions, data: BeforeData, authorization: Option<string>): (r: (Res<JsValue>, seq<Step>))
    // The hook runs first, whatever the header.
    ensures o.before.Some? ==> |r.1| > 0 && r.1[0] == RanBefore(data)
    // A refusal of the hook is the answer, and the header is not checked.
    ensures BeforeOutcome(o, data).Err? ==> r.0 == Err(BeforeOutcome(o, data).error) && !ChecksAuth(r.1)
    // No header: unauthorized without consulting `authCheck`.
    ensures BeforeOutcome(o, data).Ok? && !Given(authorization) ==>
      r.0 == Err(Unauthorized("")) && !ChecksAuth(r.1)
    // A failing or falsy check: its error, or unauthorized.
    ensures BeforeOutcome(o, data).Ok? && Given(authorization) ==>
      r.1 == BeforeSteps(o, data) + [CheckedAuth(authorization.value)] &&
      var c := o.auth.authCheck(authorization.value);
      r.0 == if c.Err? then Err(c.error) else if !Truthy(c.value) then Err(Unauthorized("")) else Ok(c.value)
    ensures r.0.Ok? <==> Admitted(o, data, authorization)
    ensures !CallsBackend(r.1)
  {
    var steps := BeforeSteps(o, data);
    var b := BeforeOutcome(o, data);
    if b.Err? then (Err(b.error), steps)
    else if !Given(authorization) then (Err(Unauthorized("")), steps)
    else
      var c := o.auth.authCheck(authorization.value);
      var steps' := steps + [CheckedAuth(authorization.value)];
      if c.Err? then (Err(c.error), steps')
      else if !Truthy(c.value) then (Err(Unauthorized("")), steps')
      else (Ok(c.value), steps')
  }

  /** `res.set(headers); res.send(body)` for a backend reply. */
  function Relay(reply: Res<Reply<JsValue>>): Res<Response>
  {
    match reply
    case Err(e) => Err(e)
    case Ok(rep) => Ok(Response(STATUS_OK, rep.headers, rep.body))
  }

  /** What a refused data request answers: the hook's error, 401 without a
      header, `authCheck`'s error, or 401 for a falsy check. */
  predicate RefusedAs(o: ServerOptions, data: BeforeData, authorization: Option<string>, r: Handled)
  {
    && !CallsBackend(r.steps)
    && (BeforeOutcome(o, data).Err? ==> r.result == Err(BeforeOutcome(o, data).error) && !ChecksAuth(r.steps))
    && (BeforeOutcome(o, data).Ok? && !Given(authorization) ==> r.result == Err(Unauthorized("")))
    && (BeforeOutcome(o, data).Ok? && Given(authorization) ==>
         var c := o.auth.authCheck(authorization.value);
         && CheckedAuth(authorization.value) in r.steps
         && (c.Err? ==> r.result == Err(c.error))
         && (c.Ok? && !Truthy(c.value) ==> r.result == Err(Unauthorized(""))))
  }

  /** What an admitted data request answers: exactly one backend call, last,
      whose reply is relayed. */
  predicate AnsweredBy(call: ServiceCall, reply: Res<Reply<JsValue>>, r: Handled)
  {
    && |r.steps| > 0
    && r.steps[|r.steps| - 1] == Called(call)
    && !CallsBackend(r.steps[..|r.steps| - 1])
    && r.result == Relay(reply)
  }

  /** A guarded route: admission, then exactly one backend call whose reply
      is relayed. */
  function Guarded(o: ServerOptions, data: BeforeData, authorization: Option<string>,
                   call: ServiceCall, reply: Res<Reply<JsValue>>): (r: Handled)
    ensures CallsBackend(r.steps) <==> Admitted(o, data, authorization)
    ensures Admitted(o, data, authorization) ==> AnsweredBy(call, reply, r)
    // A refused request throws the error the admission sequence produced.
    ensures !Admitted(o, data, authorization) ==>
      && r.result == Err(Admit(o, data, authorization).0.error)
      && r.steps == Admit(o, data, authorization).1
      && RefusedAs(o, data, authorization, r)
  {
    var (admitted, steps) := Admit(o, data, authorization);
    if admitted.Err? then Handled(Err(admitted.error), steps)
    else
      var steps' := steps + [Called(call)];
      assert steps'[..|steps'| - 1] == steps;
      assert steps'[|steps'| - 1].Called?;
      Handled(Relay(reply), steps')
  }

  /** Nothing but the query parameters reaches the backend; an absent one
      is passed as the empty string. */
  function Param(p: Option<string>): string
  {
    p.GetOr("")
  }

  // ---------------------------------------------------------------------
  // The routes.
  // ---------------------------------------------------------------------

  /** `GET {prefix}/api/v4/projects/{projectId}/repository/tree?path&page&ref`. */
  function TreeRoute(o: ServerOptions, authorization: Option<string>,
                     path: Option<string>, page: Option<string>, ref: Option<string>): (r: Handled)
    ensures var q := TreeQuery(o.projectId, Param(ref), Param(path), Param(page));
      && (CallsBackend(r.steps) <==> Admitted(o, BeforeData(path, ref), authorization))
      && (Admitted(o, BeforeData(path, ref), authorization) ==> AnsweredBy(TreeOf(q), o.backend.tree(q), r))
      && (!Admitted(o, BeforeData(path, ref), authorization) ==> RefusedAs(o, BeforeData(path, ref), authorization, r))
  {
    var q := TreeQuery(o.projectId, Param(ref), Param(path), Param(page));
    Guarded(o, BeforeData(path, ref), authorization, TreeOf(q), o.backend.tree(q))
  }

  /** `GET {prefix}/api/v4/projects/{projectId}/repository/files/{file}?ref`:
      the hook sees the file as the path. */
  function ReadFileRoute(o: ServerOptions, authorization: Option<string>,
                         file: string, ref: Option<string>): (r: Handled)
    ensures var q := FileQuery(o.projectId, Param(ref), file);
      && (CallsBackend(r.steps) <==> Admitted(o, BeforeData(Some(file), ref), authorization))
      && (Admitted(o, BeforeData(Some(file), ref), authorization) ==> AnsweredBy(ReadOf(q), o.backend.readFile(q), r))
      && (!Admitted(o, BeforeData(Some(file), ref), authorization) ==> RefusedAs(o, BeforeData(Some(file), ref), authorization, r))
  {
    var q := FileQuery(o.projectId, Param(ref), file);
    Guarded(o, BeforeData(Some(file), ref), authorization, ReadOf(q), o.backend.readFile(q))
  }

  /** `GET {prefix}/api/v4/projects/{projectId}/pipelines?ref`. */
  function ListPipelinesRoute(o: ServerOptions, authorization: Option<string>, ref: Option<string>): (r: Handled)
    ensures CallsBackend(r.steps) <==> Admitted(o, BeforeData(None, ref), authorization)
    ensures Admitted(o, BeforeData(None, ref), authorization) ==>
      AnsweredBy(ListPipelinesOf(o.projectId, Param(ref)), o.backend.listPipelines(o.projectId, Param(ref)), r)
    ensures !Admitted(o, BeforeData(None, ref), authorization) ==> RefusedAs(o, BeforeData(None, ref), authorization, r)
  {
    Guarded(o, BeforeData(None, ref), authorization, ListPipelinesOf(o.projectId, Param(ref)),
      o.backend.listPipelines(o.projectId, Param(ref)))
  }

  /** `POST {prefix}/api/v4/projects/{projectId}/pipeline?ref`. */
  function TriggerPipelineRoute(o: ServerOptions, authorization: Option<string>, ref: Option<string>): (r: Handled)
    ensures CallsBackend(r.steps) <==> Admitted(o, BeforeData(None, ref), authorization)
    ensures Admitted(o, BeforeData(None, ref), authorization) ==>
      AnsweredBy(TriggerPipelineOf(o.projectId, Param(ref)), o.backend.triggerPipeline(o.projectId, Param(ref)), r)
    ensures !Admitted(o, BeforeData(None, ref), authorization) ==> RefusedAs(o, BeforeData(None, ref), authorization, r)
  {
    Guarded(o, BeforeData(None, ref), authorization, TriggerPipelineOf(o.projectId, Param(ref)),
      o.backend.triggerPipeline(o.projectId, Param(ref)))
  }

  /** `GET {prefix}/api/v4/projects/{projectId}/pipelines/{id}`: the hook
      sees neither path nor ref. */
  function GetPipelineRoute(o: ServerOptions, authorization: Option<string>, id: string): (r: Handled)
    ensures CallsBackend(r.steps) <==> Admitted(o, BeforeData(None, None), authorization)
    ensures Admitted(o, BeforeData(None, None), authorization) ==>
      AnsweredBy(GetPipelineOf(o.projectId, id), o.backend.getPipeline(o.projectId, id), r)
    ensures !Admitted(o, BeforeData(None, None), authorization) ==> RefusedAs(o, BeforeData(None, None), authorization, r)
  {
    Guarded(o, BeforeData(None, None), authorization, GetPipelineOf(o.projectId, id),
      o.backend.getPipeline(o.projectId, id))
  }

  /** `POST {prefix}/__data-proxy__/{projectId}/authenticate`. */
  function AuthenticateRoute(o: ServerOptions, body: JsValue): (r: Handled)
    ensures BeforeOutcome(o, BeforeData(None, None)).Err? ==>
      r.result == Err(BeforeOutcome(o, BeforeData(None, None)).error) && r.steps == BeforeSteps(o, BeforeData(None, None))
    // A token is answered iff login resolved to a truthy one, and the body is `{token}`.
    ensures r.result.Ok? <==>
      BeforeOutcome(o, BeforeData(None, None)).Ok? && o.auth.authLogin(body).Ok? && Truthy(o.auth.authLogin(body).value)
    ensures r.result.Ok? ==>
      r.result.value == Response(STATUS_OK, map[], Obj(map["token" := o.auth.authLogin(body).value]))
    ensures (BeforeOutcome(o, BeforeData(None, None)).Ok? && o.auth.authLogin(body).Ok? &&
             !Truthy(o.auth.authLogin(body).value)) ==> r.result == Err(Unauthorized(""))
    // A rejection of the login passes through.
    ensures BeforeOutcome(o, BeforeData(None, None)).Ok? && o.auth.authLogin(body).Err? ==>
      r.result == Err(o.auth.authLogin(body).error)
    ensures !CallsBackend(r.steps) && !ChecksAuth(r.steps)
  {
    var data := BeforeData(None, None);
    var steps := BeforeSteps(o, data);
    var b := BeforeOutcome(o, data);
    if b.Err? then Handled(Err(b.error), steps)
    else
      var steps' := steps + [LoggedIn(body)];
      match o.auth.authLogin(body)
      case Err(e) => Handled(Err(e), steps')
      case Ok(token) =>
        if !Truthy(token) then Handled(Err(Unauthorized("")), steps')
        else Handled(Ok(Response(STATUS_OK, map[], Obj(map["token" := token]))), steps')
  }

  /** A commit request body as received; any part may be missing. */
  datatype CommitRequest = CommitRequest(
    branch: Option<string>,
    actions: Option<seq<CommitAction>>,
    commitMessage: string)

  /** The shape check `commitBody && commitBody.branch && commitBody.actions && commitBody.actions[0]`. */
  predicate WellFormed(body: Option<CommitRequest>)
  {
    body.Some? && Given(body.value.branch) && body.value.actions.Some? && |body.value.actions.value| > 0
  }

  function CommitBodyOf(body: Option<CommitRequest>): CommitBody
    requires WellFormed(body)
  {
    CommitBody(body.value.actions.value, body.value.branch.value, body.value.commitMessage)
  }

  /** What the hook sees of a commit: the first action's path and the branch. */
  function CommitBeforeData(body: Option<CommitRequest>): BeforeData
    requires WellFormed(body)
  {
    BeforeData(Some(body.value.actions.value[0].filePath), body.value.branch)
  }

  /** `beforeCommit(commitBody, authData)`: a body it resolves to replaces the original. */
  function ToCommit(o: ServerOptions, proposed: CommitBody, authData: JsValue): (r: Res<CommitBody>)
    // Without the hook, the body as received is committed.
    ensures o.beforeCommit.None? ==> r == Ok(proposed)
    // The hook's rejection aborts the commit.
    ensures o.beforeCommit.Some? && o.beforeCommit.value(proposed, authData).Err? ==>
      r == Err(o.beforeCommit.value(proposed, authData).error)
    // A body the hook resolves to is committed instead; resolving to nothing keeps the original.
    ensures o.beforeCommit.Some? && o.beforeCommit.value(proposed, authData).Ok? ==>
      var replacement := o.beforeCommit.value(proposed, authData).value;
      r == Ok(if replacement.Some? then replacement.value else proposed)
  {
    if o.beforeCommit.None? then Ok(proposed)
    else
      var replacement :- o.beforeCommit.value(proposed, authData);
      Ok(if replacement.Some? then replacement.value else proposed)
  }

  /** `POST {prefix}/api/v4/projects/{projectId}/repository/commits`. */
  function CommitRoute(o: ServerOptions, authorization: Option<string>, body: Option<CommitRequest>): (r: Handled)
    // A malformed body is a bad request, before any hook or check.
    ensures !WellFormed(body) ==> r.result == Err(BadRequest("")) && r.steps == []
    ensures WellFormed(body) ==>
      var data := CommitBeforeData(body);
      && (CallsBackend(r.steps) <==>
           Admitted(o, data, authorization) &&
           ToCommit(o, CommitBodyOf(body), o.auth.authCheck(authorization.value).value).Ok?)
      && (BeforeOutcome(o, data).Err? ==> r.result == Err(BeforeOutcome(o, data).error) && !ChecksAuth(r.steps))
      && (BeforeOutcome(o, data).Ok? && !Given(authorization) ==> r.result == Err(Unauthorized("")))
      // A refused commit answers as any refused data request.
      && (!Admitted(o, data, authorization) ==> RefusedAs(o, data, authorization, r))
      // A rejection of `beforeCommit` aborts the commit with its error.
      && (Admitted(o, data, authorization) &&
          ToCommit(o, CommitBodyOf(body), o.auth.authCheck(authorization.value).value).Err? ==>
            r.result == Err(ToCommit(o, CommitBodyOf(body), o.auth.authCheck(authorization.value).value).error))
    // What is committed is the hook's replacement when it returns one.
    ensures WellFormed(body) && CallsBackend(r.steps) ==>
      var authData := o.auth.authCheck(authorization.value).value;
      var committed := ToCommit(o, CommitBodyOf(body), authData).value;
      && r.steps[|r.steps| - 1] == Called(CommitOf(o.projectId, committed))
      && r.result == Relay(o.backend.commit(o.projectId, committed))
      && (o.beforeCommit.Some? ==> RanBeforeCommit(CommitBodyOf(body)) in r.steps)
  {
    if !WellFormed(body) then Handled(Err(BadRequest("")), [])
    else
      var proposed := CommitBodyOf(body);
      var (admitted, steps) := Admit(o, CommitBeforeData(body), authorization);
      if admitted.Err? then Handled(Err(admitted.error), steps)
      else
        var steps' := steps + (if o.beforeCommit.Some? then [RanBeforeCommit(proposed)] else []);
        assert !CallsBackend(steps') by {
          forall k | 0 <= k < |steps'| ensures !steps'[k].Called? {
            if k >= |steps| { assert steps'[k] == RanBeforeCommit(proposed); } else { assert steps'[k] == steps[k]; }
          }
        }
        match ToCommit(o, proposed, admitted.value)
        case Err(e) => Handled(Err(e), steps')
        case Ok(committed) =>
          var steps'' := steps' + [Called(CommitOf(o.projectId, committed))];
          assert o.beforeCommit.Some? ==> steps''[|steps|] == RanBeforeCommit(proposed);
          assert steps''[|steps''| - 1].Called?;
          Handled(Relay(o.backend.commit(o.projectId, committed)), steps'')
  }

  // ---------------------------------------------------------------------
  // The error handler.
  // ---------------------------------------------------------------------

  /** What reaches the client: a response, or an error passed on to the
      framework's default handler. */
  datatype Outcome = Sent(response: Response) | Passed(error: Error)

  /** Boom's reason phrase: Node's table of status codes (`http.STATUS_CODES`),
      or "Unknown" for a code it does not list. */
  function StatusPhrase(codes: int -> Option<string>, status: int): (phrase: string)
    ensures codes(status).Some? ==> phrase == codes(status).value
    ensures codes(status).None? ==> phrase == "Unknown"
  {
    codes(status).GetOr("Unknown")
  }

  /** A Boom error's payload: status code, reason phrase, and the message
      when there is one (hidden for a 500). */
  function BoomPayload(codes: int -> Option<string>, status: int, message: string): (payload: JsValue)
    ensures payload.Obj?
    ensures "statusCode" in payload.fields && payload.fields["statusCode"] == Num(status)
    ensures "error" in payload.fields && payload.fields["error"] == Str(StatusPhrase(codes, status))
    // The message is shown unless it is empty; a 500 always shows the generic one.
    ensures "message" in payload.fields <==> status == 500 || message != ""
    ensures status != 500 && message != "" ==> payload.fields["message"] == Str(message)
    ensures status == 500 ==> payload.fields["message"] == Str("An internal server error occurred")
    ensures payload.fields.Keys <= {"statusCode", "error", "message"}
  {
    var base := map["statusCode" := Num(status), "error" := Str(StatusPhrase(codes, status))];
    if status == 500 then Obj(base["message" := Str("An internal server error occurred")])
    else if message != "" then Obj(base["message" := Str(message)])
    else Obj(base)
  }

  /** `errorHandler(err, req, res, next)`. */
  function ErrorHandler(codes: int -> Option<string>, e: Error): (r: Outcome)
    // Boom errors answer with their own status, headers and payload.
    ensures e.Boom? ==> r == Sent(Response(e.status, e.headers, BoomPayload(codes, e.status, e.message)))
    // Upstream HTTP errors relay the upstream status and body.
    ensures e.HttpError? ==> r == Sent(Response(e.status, map[], e.body))
    // Anything else is passed on unchanged.
    ensures e.Thrown? ==> r == Passed(e)
  {
    match e
    case Boom(status, message, headers) => Sent(Response(status, headers, BoomPayload(codes, status, message)))
    case HttpError(status, body) => Sent(Response(status, map[], body))
    case Thrown(_, _) => Passed(e)
  }

  /** A handler's result as the client sees it: its response, or its error
      through the error handler. */
  function Serve(codes: int -> Option<string>, h: Handled): (r: Outcome)
    ensures h.result.Ok? ==> r == Sent(h.result.value)
    // Only an error that is neither Boom nor an upstream HTTP error leaves the gateway unanswered.
    ensures r.Passed? <==> h.result.Err? && h.result.error.Thrown?
    ensures r.Passed? ==> r.error == h.result.error
    ensures h.result.Err? && h.result.error.Boom? ==>
      r.Sent? && r.response.status == h.result.error.status && r.response.headers == h.result.error.headers
    ensures h.result.Err? && h.result.error.HttpError? ==>
      r.Sent? && r.response.status == h.result.error.status && r.response.body == h.result.error.body
  {
    match h.result
    case Ok(response) => Sent(response)
    case Err(e) => ErrorHandler(codes, e)
  }

  /** A data request without an Authorization header, when the hook lets it
      through, is answered 401 and the backend is not called. */
  lemma MissingHeaderIs401(codes: int -> Option<string>, o: ServerOptions,
                            path: Option<string>, page: Option<string>, ref: Option<string>)
    requires BeforeOutcome(o, BeforeData(path, ref)).Ok?
    ensures Serve(codes, TreeRoute(o, None, path, page, ref)).Sent?
    ensures Serve(codes, TreeRoute(o, None, path, page, ref)).response.status == STATUS_UNAUTHORIZED
    ensures !CallsBackend(TreeRoute(o, None, path, page, ref).steps)
  {
  }

  // ---------------------------------------------------------------------
  // Route paths.
  // ---------------------------------------------------------------------

  /** `${prefix}/__data-proxy__/${encodeURIComponent(projectId)}/authenticate`. */
  function AuthenticatePath(prefix: Option<string>, encode: string -> string, projectId: string): string
  {
    prefix.GetOr("") + "/__data-proxy__/" + encode(projectId) + "/authenticate"
  }

  /** `${prefix}/api/v4/projects/${encodeURIComponent(projectId)}/repository/tree`. */
  function TreePath(prefix: Option<string>, encode: string -> string, projectId: string): string
  {
    prefix.GetOr("") + "/api/v4/projects/" + encode(projectId) + "/repository/tree"
  }
}
