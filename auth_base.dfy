/** `authBase`: bearer-header parsing and token verification (`authCheck`),
    login-body validation and token issue (`authLogin`). The JSON Web Token
    library is a pair of abstract functions. */
module AuthBase {

  import opened Wrappers
  import opened Strings
  import opened Js
  import opened Common

  /** An error thrown by token verification: its `name` and `message`. */
  datatype VerifyError = VerifyError(name: string, message: string)

  /** `jwt.sign(payload, secret, signOptions)` and `jwt.verify(token, secret)`. */
  datatype Jwt = Jwt(
    sign: (JsValue, string, Option<JsValue>) -> string,
    verify: (string, string) -> Result<JsValue, VerifyError>)

  /** What `authBase` is configured with. `verifyPassword` may resolve to any
      value; only its truthiness matters here. */
  datatype AuthOptions = AuthOptions(
    jwtSecret: string,
    jwtSignOptions: Option<JsValue>,
    check: JsValue -> Res<bool>,
    verifyPassword: (JsValue, JsValue) -> Res<JsValue>)

  const BEARER := "Bearer"

  /** The verification failures that are the caller's fault. */
  predicate ExpectedVerifyError(name: string)
  {
    name == "TokenExpiredError" || name == "JsonWebTokenError" || name == "NotBeforeError"
  }

  /** The token of `const [authType, token] = header.split(" ")`, when
      `authType` is exactly "Bearer" and `token` is non-empty. */
  function BearerToken(header: string): (t: Option<string>)
    ensures t.Some? ==> t.value != "" && ' ' !in t.value
  {
    var parts := Split(header, ' ');
    SplitJoin(header, ' ');
    if parts[0] == BEARER && |parts| > 1 && parts[1] != "" then Some(parts[1]) else None
  }

  /** "Bearer " followed by a non-empty token without spaces yields that
      token; anything after a further space is ignored. */
  lemma BearerTokenOf(token: string, tail: string)
    requires token != "" && ' ' !in token
    ensures BearerToken(BEARER + " " + token) == Some(token)
    ensures BearerToken(BEARER + " " + token + " " + tail) == Some(token)
  {
    assert ' ' !in BEARER;
    assert " " == [' '];
    SplitPieces(BEARER, token, ' ', tail);
  }

  /** The claims signed into a token: `{login}` and nothing else. */
  function Claims(login: JsValue): JsValue
  {
    Obj(map["login" := login])
  }

  /** `authCheck(header)`. */
  function AuthCheck(o: AuthOptions, jwt: Jwt, header: string): (r: Res<bool>)
    // A header that is not "Bearer <token>" is refused before verification.
    ensures BearerToken(header).None? ==> r == Ok(false)
    // Expected verification errors become a bad request; others are rethrown.
    ensures BearerToken(header).Some? && jwt.verify(BearerToken(header).value, o.jwtSecret).Err? ==>
      var e := jwt.verify(BearerToken(header).value, o.jwtSecret).error;
      r == if ExpectedVerifyError(e.name) then Err(BadRequest(e.message)) else Err(Thrown(e.name, e.message))
    // A verified payload without a truthy login is refused without consulting `check`.
    ensures BearerToken(header).Some? && jwt.verify(BearerToken(header).value, o.jwtSecret).Ok? ==>
      var data := jwt.verify(BearerToken(header).value, o.jwtSecret).value;
      (!Truthy(data) || !Truthy(Prop(data, "login")) ==> r == Ok(false)) &&
      (Truthy(data) && Truthy(Prop(data, "login")) ==> r == o.check(Prop(data, "login")))
    // So the answer is true only when `check` says so for a verified login.
    ensures r == Ok(true) ==> (
      && BearerToken(header).Some?
      && var v := jwt.verify(BearerToken(header).value, o.jwtSecret);
         v.Ok? && Truthy(v.value) && Truthy(Prop(v.value, "login")) && o.check(Prop(v.value, "login")) == Ok(true))
  {
    match BearerToken(header)
    case None => Ok(false)
    case Some(token) =>
      match jwt.verify(token, o.jwtSecret)
      case Err(e) =>
        if ExpectedVerifyError(e.name) then Err(BadRequest(e.message)) else Err(Thrown(e.name, e.message))
      case Ok(data) =>
        if !Truthy(data) then Ok(false)
        else
          var login := Prop(data, "login");
          if !Truthy(login) then Ok(false) else o.check(login)
  }

  /** `authLogin(body)`: the signed token, or None for "undefined". */
  function AuthLogin(o: AuthOptions, jwt: Jwt, body: JsValue): (r: Res<Option<string>>)
    // Not an object: nothing, and `verifyPassword` is not consulted.
    ensures !TypeofObject(body) ==> r == Ok(None)
    // `typeof null` is "object", and destructuring null throws.
    ensures body.Null? ==> r.Err? && r.error.Thrown? && r.error.name == "TypeError"
    // A falsy login or password: nothing, without consulting `verifyPassword`.
    ensures body.Arr? || body.Obj? ==>
      !Truthy(Prop(body, "login")) || !Truthy(Prop(body, "password")) ==> r == Ok(None)
    // A token is issued only after `verifyPassword` accepted, and it signs
    // exactly `{login}` with the configured secret and sign options.
    ensures r.Ok? && r.value.Some? ==>
      && (body.Arr? || body.Obj?)
      && Truthy(Prop(body, "login")) && Truthy(Prop(body, "password"))
      && r.value.value == jwt.sign(Claims(Prop(body, "login")), o.jwtSecret, o.jwtSignOptions)
      && (var v := o.verifyPassword(Prop(body, "login"), Prop(body, "password"));
          v.Ok? && Truthy(v.value))
    // A rejection of `verifyPassword` propagates unchanged.
    ensures ((body.Arr? || body.Obj?) && Truthy(Prop(body, "login")) && Truthy(Prop(body, "password")) &&
             o.verifyPassword(Prop(body, "login"), Prop(body, "password")).Err?) ==>
      r == Err(o.verifyPassword(Prop(body, "login"), Prop(body, "password")).error)
  {
    if !TypeofObject(body) then Ok(None)
    else if body.Null? then Err(TypeError("Cannot destructure 'body' as it is null."))
    else
      var login := Prop(body, "login");
      var password := Prop(body, "password");
      if !Truthy(login) || !Truthy(password) then Ok(None)
      else
        var verified :- o.verifyPassword(login, password);
        if !Truthy(verified) then Ok(None)
        else Ok(Some(jwt.sign(Claims(login), o.jwtSecret, o.jwtSignOptions)))
  }

  /** For an object body with a truthy login and password, the answer of
      `verifyPassword` alone decides: a truthy one issues the token. */
  lemma LoginDecided(o: AuthOptions, jwt: Jwt, body: JsValue, verified: JsValue)
    requires (body.Obj? || body.Arr?) && Truthy(Prop(body, "login")) && Truthy(Prop(body, "password"))
    requires o.verifyPassword(Prop(body, "login"), Prop(body, "password")) == Ok(verified)
    ensures AuthLogin(o, jwt, body) ==
      if Truthy(verified) then Ok(Some(jwt.sign(Claims(Prop(body, "login")), o.jwtSecret, o.jwtSignOptions)))
      else Ok(None)
  {
  }

  /** What the round trip assumes of the token library for these claims:
      verifying a token signed with the same secret gives the claims back,
      and a token is a non-empty string without spaces. */
  predicate SignsAndVerifies(jwt: Jwt, secret: string, signOptions: Option<JsValue>, claims: JsValue)
  {
    var token := jwt.sign(claims, secret, signOptions);
    && jwt.verify(token, secret) == Ok(claims)
    && token != "" && ' ' !in token
  }

  /** A token issued by `authLogin`, sent back as "Bearer <token>" with the
      same secret, makes `authCheck` answer exactly what `check` answers for
      the login that was signed in. */
  lemma LoginThenCheck(o: AuthOptions, jwt: Jwt, body: JsValue, token: string)
    requires AuthLogin(o, jwt, body) == Ok(Some(token))
    requires body.Obj? || body.Arr?
    requires SignsAndVerifies(jwt, o.jwtSecret, o.jwtSignOptions, Claims(Prop(body, "login")))
    ensures AuthCheck(o, jwt, BEARER + " " + token) == o.check(Prop(body, "login"))
  {
    var login := Prop(body, "login");
    assert token == jwt.sign(Claims(login), o.jwtSecret, o.jwtSignOptions);
    BearerTokenOf(token, "");
    assert Prop(Claims(login), "login") == login;
  }
}
