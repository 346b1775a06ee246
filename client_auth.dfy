/** The react-admin authentication provider of the browser client: it logs
    in against the gateway's `authenticate` route, keeps the token in the
    browser's local storage under one key, and answers react-admin's
    logout, error and check requests from that stored token. */
module ClientAuth {

  import opened Wrappers
  import opened Js
  import Gateway

  /** The local-storage key holding the token. */
  const KEY := "react-admin.data-proxy.token"

  const AUTH_LOGIN := "AUTH_LOGIN"
  const AUTH_LOGOUT := "AUTH_LOGOUT"
  const AUTH_ERROR := "AUTH_ERROR"
  const AUTH_CHECK := "AUTH_CHECK"
  const UNKNOWN_METHOD := "Unknown method"

  /** `window.localStorage`: string values under string keys. */
  class Storage {
    var items: map<string, string>

    constructor()
      ensures items == map[]
    {
      items := map[];
    }

    /** `getToken()`: the stored token, an empty one counting as none
        (`getItem(KEY) || undefined`). */
    function Token(): (t: Option<string>)
      reads this
      ensures t.Some? <==> KEY in items && items[KEY] != ""
      ensures t.Some? ==> t.value == items[KEY]
    {
      StoredToken(items)
    }

    /** `setToken(value)`: `setItem` stores the value's string form. */
    method SetToken(value: JsValue)
      modifies this
      ensures items == old(items)[KEY := ToString(value)]
    {
      items := items[KEY := ToString(value)];
    }

    /** `removeToken()`. */
    method RemoveToken()
      modifies this
      ensures items == old(items) - {KEY}
    {
      items := items - {KEY};
    }
  }

  function StoredToken(items: map<string, string>): Option<string>
  {
    if KEY in items && items[KEY] != "" then Some(items[KEY]) else None
  }

  datatype ProviderOptions = ProviderOptions(host: string, projectId: string)

  /** A `fetch` request: URL, JSON body, headers and method. */
  datatype ClientRequest = ClientRequest(url: string, body: string, headers: map<string, string>, verb: string)

  /** A `fetch` response: status, status text, and what `res.json()`
      resolves to or the message it rejects with. */
  datatype ClientResponse = ClientResponse(status: int, statusText: string, json: Result<JsValue, string>)

  /** The browser services the provider calls: `fetch` (which rejects with an
      error message), `encodeURIComponent` and `JSON.stringify`. */
  datatype Browser = Browser(
    fetch: ClientRequest -> Result<ClientResponse, string>,
    encode: string -> string,
    stringify: JsValue -> string)

  /** How the returned promise settles; a rejection without argument has
      `undefined` as its reason. */
  datatype Outcome = Resolved | Rejected(reason: JsValue)

  /** `${host}/__data-proxy__/${encodeURIComponent(projectId)}/authenticate`. */
  function LoginUrl(b: Browser, o: ProviderOptions): string
  {
    o.host + "/__data-proxy__/" + b.encode(o.projectId) + "/authenticate"
  }

  /** The login request: the credentials as a JSON body, posted. */
  function LoginRequest(b: Browser, o: ProviderOptions, login: JsValue, password: JsValue): (r: ClientRequest)
    ensures r.url == LoginUrl(b, o) && r.verb == "post"
    ensures r.headers == map["Content-Type" := "application/json"]
    ensures r.body == b.stringify(Obj(map["login" := login, "password" := password]))
  {
    ClientRequest(
      LoginUrl(b, o),
      b.stringify(Obj(map["login" := login, "password" := password])),
      map["Content-Type" := "application/json"],
      "post")
  }

  predicate Success(status: int)
  {
    200 <= status < 300
  }

  /** The `token` of the login reply, or the message the login rejects with. */
  function LoginToken(b: Browser, o: ProviderOptions, params: JsValue): (r: Result<JsValue, string>)
    ensures Nullish(params) ==> r.Err?
    ensures r.Ok? ==> (!Nullish(params) &&
      var res := b.fetch(LoginRequest(b, o, Prop(params, "login"), Prop(params, "password")));
      && res.Ok? && Success(res.value.status) && res.value.json.Ok? && !Nullish(res.value.json.value)
      && r.value == Prop(res.value.json.value, "token"))
    ensures !Nullish(params) ==>
      var res := b.fetch(LoginRequest(b, o, Prop(params, "login"), Prop(params, "password")));
      && (res.Err? ==> r == Err(res.error))
      && (res.Ok? && !Success(res.value.status) ==> r == Err(res.value.statusText))
      && (res.Ok? && Success(res.value.status) && res.value.json.Err? ==> r == Err(res.value.json.error))
      && (res.Ok? && Success(res.value.status) && res.value.json.Ok? && !Nullish(res.value.json.value) ==>
            r == Ok(Prop(res.value.json.value, "token")))
  {
    if Nullish(params) then Err("Cannot destructure 'params' as it is " + ToString(params) + ".")
    else
      var res :- b.fetch(LoginRequest(b, o, Prop(params, "login"), Prop(params, "password")));
      if !Success(res.status) then Err(res.statusText)
      else
        var json :- res.json;
        if Nullish(json) then Err("Cannot destructure property 'token' of " + ToString(json) + ".")
        else Ok(Prop(json, "token"))
  }

  /** One request of react-admin: how it settles and the storage after it. */
  function Handle(items: map<string, string>, b: Browser, o: ProviderOptions, kind: string, params: JsValue)
    : (r: (Outcome, map<string, string>))
    // Only the token key is ever written.
    ensures forall k :: k != KEY ==> (k in r.1 <==> k in items)
    ensures forall k :: k != KEY && k in r.1 ==> r.1[k] == items[k]
    // A login stores the token it received, or fails and keeps the old one.
    ensures kind == AUTH_LOGIN ==> match LoginToken(b, o, params)
      case Ok(t) => r == (Resolved, items[KEY := ToString(t)])
      case Err(m) => r == (Rejected(Str(m)), items)
    ensures kind == AUTH_LOGOUT ==> r == (Resolved, items - {KEY})
    ensures kind == AUTH_ERROR ==> r == (Resolved, items)
    // A check succeeds exactly when a non-empty token is stored.
    ensures kind == AUTH_CHECK ==> r.1 == items && (r.0.Resolved? <==> StoredToken(items).Some?)
    ensures kind !in {AUTH_LOGIN, AUTH_LOGOUT, AUTH_ERROR, AUTH_CHECK} ==>
      r == (Rejected(Str(UNKNOWN_METHOD)), items)
  {
    if kind == AUTH_LOGIN then
      match LoginToken(b, o, params)
      case Ok(t) => (Resolved, items[KEY := ToString(t)])
      case Err(m) => (Rejected(Str(m)), items)
    else if kind == AUTH_LOGOUT then (Resolved, items - {KEY})
    else if kind == AUTH_ERROR then (Resolved, items)
    else if kind == AUTH_CHECK then
      (if StoredToken(items).Some? then Resolved else Rejected(Undefined), items)
    else (Rejected(Str(UNKNOWN_METHOD)), items)
  }

  /** `createAuthProvider({host, projectId})(type, params)`. */
  method Provide(storage: Storage, b: Browser, o: ProviderOptions, kind: string, params: JsValue)
    returns (out: Outcome)
    modifies storage
    ensures (out, storage.items) == Handle(old(storage.items), b, o, kind, params)
  {
    if kind == AUTH_LOGIN {
      var token := LoginToken(b, o, params);
      if token.Err? {
        return Rejected(Str(token.error));
      }
      storage.SetToken(token.value);
      return Resolved;
    }
    if kind == AUTH_LOGOUT {
      storage.RemoveToken();
      return Resolved;
    }
    if kind == AUTH_ERROR {
      return Resolved;
    }
    if kind == AUTH_CHECK {
      out := if storage.Token().Some? then Resolved else Rejected(Undefined);
      return;
    }
    return Rejected(Str(UNKNOWN_METHOD));
  }

  /** The client posts to the gateway's `authenticate` route when its host is
      the gateway's origin followed by the gateway's route prefix. */
  lemma LoginUrlRoutes(b: Browser, o: ProviderOptions, origin: string, prefix: string)
    requires o.host == origin + prefix
    ensures LoginUrl(b, o) == origin + Gateway.AuthenticatePath(Some(prefix), b.encode, o.projectId)
    ensures o.host == origin ==> LoginUrl(b, o) == origin + Gateway.AuthenticatePath(None, b.encode, o.projectId)
  {
  }

  /** After a login answered with a non-empty string token, checks succeed
      and the token is the one stored. */
  lemma LoginThenCheck(items: map<string, string>, b: Browser, o: ProviderOptions, params: JsValue, token: string)
    requires !Nullish(params)
    requires var res := b.fetch(LoginRequest(b, o, Prop(params, "login"), Prop(params, "password")));
      res.Ok? && Success(res.value.status) && res.value.json == Ok(Obj(map["token" := Str(token)]))
    requires token != ""
    ensures Handle(items, b, o, AUTH_LOGIN, params).0 == Resolved
    ensures StoredToken(Handle(items, b, o, AUTH_LOGIN, params).1) == Some(token)
    ensures Handle(Handle(items, b, o, AUTH_LOGIN, params).1, b, o, AUTH_CHECK, params).0 == Resolved
  {
    assert LoginToken(b, o, params) == Ok(Str(token));
  }

  /** After a logout, checks fail with no reason, whatever was stored. */
  lemma LogoutThenCheck(items: map<string, string>, b: Browser, o: ProviderOptions, params: JsValue)
    ensures Handle(Handle(items, b, o, AUTH_LOGOUT, params).1, b, o, AUTH_CHECK, params).0 == Rejected(Undefined)
  {
  }

  /** A failed login leaves the previous session in place: a check answers
      as it did before. */
  lemma FailedLoginKeepsSession(items: map<string, string>, b: Browser, o: ProviderOptions, params: JsValue)
    requires LoginToken(b, o, params).Err?
    ensures Handle(items, b, o, AUTH_LOGIN, params).0.Rejected?
    ensures Handle(Handle(items, b, o, AUTH_LOGIN, params).1, b, o, AUTH_CHECK, params)
      == Handle(items, b, o, AUTH_CHECK, params)
  {
  }

  /** A successful reply without a token stores the string "undefined",
      which checks then accept. */
  lemma LoginWithoutTokenStoresUndefined(items: map<string, string>, b: Browser, o: ProviderOptions, params: JsValue)
    requires !Nullish(params)
    requires var res := b.fetch(LoginRequest(b, o, Prop(params, "login"), Prop(params, "password")));
      res.Ok? && Success(res.value.status) && res.value.json == Ok(Obj(map[]))
    ensures Handle(items, b, o, AUTH_LOGIN, params) == (Resolved, items[KEY := "undefined"])
    ensures Handle(Handle(items, b, o, AUTH_LOGIN, params).1, b, o, AUTH_CHECK, params).0 == Resolved
  {
    assert LoginToken(b, o, params) == Ok(Undefined);
  }
}
