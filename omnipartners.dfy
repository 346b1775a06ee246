/** The Omnipartners authentication backend: `authBase` configured with a
    password check against the Omnipartners identity service, an optional
    per-user verification and an optional user formatter; and the two
    verifiers that accept a user whose owner guid appears in a data file. */
module Omnipartners {

  import opened Wrappers
  import opened Js
  import opened Common
  import opened Interface
  import Loader
  import AuthBase

  /** The user data sections left out of the authentication reply. */
  const DATA_OPTIONS: seq<string> := ["-pet_details", "-preferences", "-loyalty_cards", "-access_rights"]

  /** The identity-service error codes that mean "wrong credentials": user
      not found, user not active, wrong password, no password, password not
      meeting the requirements. */
  const REJECTED_CODES: seq<string> := [
    "OP/OPStatusError/3",
    "OP/OPStatusError/4",
    "OP/OPStatusError/5",
    "OP/OPStatusError/17",
    "OP/OPStatusError/28"
  ]

  /** `identity.authenticate({data_options, identifier, password})`. */
  datatype AuthenticateRequest = AuthenticateRequest(dataOptions: seq<string>, identifier: JsValue, password: JsValue)

  /** A rejection of the identity service: its `code` and the error itself. */
  datatype Failure = Failure(code: JsValue, error: Error)

  datatype OmniOptions = OmniOptions(
    jwtSecret: string,
    jwtSignOptions: Option<JsValue>,
    authenticate: AuthenticateRequest -> Result<JsValue, Failure>,
    verifyUser: Option<JsValue -> Res<JsValue>>,
    formatUser: Option<JsValue -> JsValue>)

  /** `err.code` is one of the wrong-credentials codes (strict comparison
      with strings: only a string can be one of them). */
  predicate Rejected(code: JsValue)
  {
    code.Str? && code.s in REJECTED_CODES
  }

  function Request(login: JsValue, password: JsValue): AuthenticateRequest
  {
    AuthenticateRequest(DATA_OPTIONS, login, password)
  }

  /** `formatUser ? formatUser(data) : data`. */
  function Formatted(o: OmniOptions, data: JsValue): JsValue
  {
    if o.formatUser.Some? then o.formatUser.value(data) else data
  }

  /** The token data of an accepted user. */
  function Accepted(o: OmniOptions, data: JsValue, verifyData: JsValue): JsValue
  {
    Obj(map["user" := Formatted(o, data), "verifyData" := verifyData])
  }

  /** `verifyPassword(login, password)`. */
  function VerifyPassword(o: OmniOptions, login: JsValue, password: JsValue): (r: Res<JsValue>)
    // Wrong credentials answer false; any other failure is rethrown as it is.
    ensures o.authenticate(Request(login, password)).Err? ==>
      var f := o.authenticate(Request(login, password)).error;
      r == if Rejected(f.code) then Ok(Bool(false)) else Err(f.error)
    // Without a verifier every authenticated user is accepted, with `{}` as verification data.
    ensures o.authenticate(Request(login, password)).Ok? && o.verifyUser.None? ==>
      r == Ok(Accepted(o, o.authenticate(Request(login, password)).value, Obj(map[])))
    // With one, its rejection propagates, a falsy answer refuses, a truthy one is kept.
    ensures o.authenticate(Request(login, password)).Ok? && o.verifyUser.Some? ==>
      var data := o.authenticate(Request(login, password)).value;
      var v := o.verifyUser.value(data);
      && (v.Err? ==> r == Err(v.error))
      && (v.Ok? && !Truthy(v.value) ==> r == Ok(Bool(false)))
      && (v.Ok? && Truthy(v.value) ==> r == Ok(Accepted(o, data, v.value)))
    // Every answer is false or the accepted user's token data; it is never
    // some other falsy value.
    ensures r.Ok? ==> (r.value == Bool(false) || (r.value.Obj? && "verifyData" in r.value.fields &&
      Truthy(r.value.fields["verifyData"]) && o.authenticate(Request(login, password)).Ok?))
  {
    match o.authenticate(Request(login, password))
    case Err(f) => if Rejected(f.code) then Ok(Bool(false)) else Err(f.error)
    case Ok(data) =>
      var verifyData :- if o.verifyUser.Some? then o.verifyUser.value(data) else Ok(Obj(map[]));
      if !Truthy(verifyData) then Ok(Bool(false)) else Ok(Accepted(o, data, verifyData))
  }

  /** `authOmnipartners(options)`: `authBase` whose `check` accepts every
      login and whose `verifyPassword` asks the identity service. */
  function AuthOmnipartners(o: OmniOptions): (a: AuthBase.AuthOptions)
    ensures a.jwtSecret == o.jwtSecret && a.jwtSignOptions == o.jwtSignOptions
    ensures forall login :: a.check(login) == Ok(true)
    ensures forall login, password :: a.verifyPassword(login, password) == VerifyPassword(o, login, password)
  {
    AuthBase.AuthOptions(
      o.jwtSecret, o.jwtSignOptions,
      login => Ok(true),
      (login, password) => VerifyPassword(o, login, password))
  }

  /** Every token that verifies and carries a truthy login is accepted:
      nothing is asked of the identity service on later requests. */
  lemma CheckAcceptsSignedLogin(o: OmniOptions, jwt: AuthBase.Jwt, header: string)
    requires AuthBase.BearerToken(header).Some?
    requires var v := jwt.verify(AuthBase.BearerToken(header).value, o.jwtSecret);
      v.Ok? && Truthy(v.value) && Truthy(Prop(v.value, "login"))
    ensures AuthBase.AuthCheck(AuthOmnipartners(o), jwt, header) == Ok(true)
  {
  }

  /** A login with wrong credentials is answered without a token and without error. */
  lemma WrongCredentialsNoToken(o: OmniOptions, jwt: AuthBase.Jwt, body: JsValue)
    requires body.Obj? && Truthy(Prop(body, "login")) && Truthy(Prop(body, "password"))
    requires var a := o.authenticate(Request(Prop(body, "login"), Prop(body, "password")));
      a.Err? && Rejected(a.error.code)
    ensures AuthBase.AuthLogin(AuthOmnipartners(o), jwt, body) == Ok(None)
  {
  }

  /** Any other failure of the identity service fails the login with that error. */
  lemma ServiceFailurePropagates(o: OmniOptions, jwt: AuthBase.Jwt, body: JsValue)
    requires body.Obj? && Truthy(Prop(body, "login")) && Truthy(Prop(body, "password"))
    requires var a := o.authenticate(Request(Prop(body, "login"), Prop(body, "password")));
      a.Err? && !Rejected(a.error.code)
    ensures AuthBase.AuthLogin(AuthOmnipartners(o), jwt, body) ==
      Err(o.authenticate(Request(Prop(body, "login"), Prop(body, "password"))).error.error)
  {
  }

  /** `e[guidField] === guid`. Objects and arrays are compared by reference,
      and a parsed entity is never the very object read from the user. */
  predicate StrictEquals(a: JsValue, b: JsValue)
  {
    a == b && !a.Arr? && !a.Obj?
  }

  /** The search passed the first `n` entities: none of them is null or
      undefined, and none matches. */
  predicate SearchedPast(entities: seq<JsValue>, n: int, field: string, guid: JsValue)
    requires 0 <= n <= |entities|
  {
    forall k :: 0 <= k < n ==> !Nullish(entities[k]) && !StrictEquals(Prop(entities[k], field), guid)
  }

  /** The entity at `i` is the first match. */
  predicate MatchesFirstAt(entities: seq<JsValue>, i: int, field: string, guid: JsValue)
  {
    && 0 <= i < |entities|
    && !Nullish(entities[i]) && StrictEquals(Prop(entities[i], field), guid)
    && SearchedPast(entities, i, field, guid)
  }

  /** The entity at `i` is null or undefined, and no match comes before it. */
  predicate ThrowsAt(entities: seq<JsValue>, i: int, field: string, guid: JsValue)
  {
    && 0 <= i < |entities|
    && Nullish(entities[i])
    && SearchedPast(entities, i, field, guid)
  }

  /** `entities.find(e => e[guidField] === guid)`: the first entity whose
      field matches; reading the field of a null or undefined entity met
      before the match throws. */
  function Find(entities: seq<JsValue>, field: string, guid: JsValue): (r: Res<Option<JsValue>>)
    // A found entity is the first match.
    ensures r.Ok? && r.value.Some? ==>
      exists i :: MatchesFirstAt(entities, i, field, guid) && entities[i] == r.value.value
    ensures r.Ok? && r.value.None? ==> SearchedPast(entities, |entities|, field, guid)
    // The search fails on a null or undefined entity that comes before every match.
    ensures r.Err? ==> exists i :: ThrowsAt(entities, i, field, guid)
  {
    if entities == [] then Ok(None)
    else if Nullish(entities[0]) then
      assert ThrowsAt(entities, 0, field, guid);
      Err(TypeError("Cannot read properties of " + ToString(entities[0])))
    else if StrictEquals(Prop(entities[0], field), guid) then
      assert MatchesFirstAt(entities, 0, field, guid);
      Ok(Some(entities[0]))
    else
      var rest := Find(entities[1..], field, guid);
      FindStep(entities, field, guid, rest);
      rest
  }

  /** The first entity neither throws nor matches, so what the search of the
      rest finds at `i` is found at `i + 1`. */
  lemma FindStep(entities: seq<JsValue>, field: string, guid: JsValue, rest: Res<Option<JsValue>>)
    requires entities != [] && !Nullish(entities[0]) && !StrictEquals(Prop(entities[0], field), guid)
    requires rest.Ok? && rest.value.Some? ==>
      exists i :: MatchesFirstAt(entities[1..], i, field, guid) && entities[1..][i] == rest.value.value
    requires rest.Ok? && rest.value.None? ==> SearchedPast(entities[1..], |entities[1..]|, field, guid)
    requires rest.Err? ==> exists i :: ThrowsAt(entities[1..], i, field, guid)
    ensures rest.Ok? && rest.value.Some? ==>
      exists i :: MatchesFirstAt(entities, i, field, guid) && entities[i] == rest.value.value
    ensures rest.Ok? && rest.value.None? ==> SearchedPast(entities, |entities|, field, guid)
    ensures rest.Err? ==> exists i :: ThrowsAt(entities, i, field, guid)
  {
    var tail := entities[1..];
    if rest.Ok? && rest.value.Some? {
      var i :| MatchesFirstAt(tail, i, field, guid) && tail[i] == rest.value.value;
      SearchedPastCons(entities, i, field, guid);
      assert entities[i + 1] == tail[i];
      assert MatchesFirstAt(entities, i + 1, field, guid);
    } else if rest.Ok? {
      SearchedPastCons(entities, |tail|, field, guid);
    } else {
      var i :| ThrowsAt(tail, i, field, guid);
      SearchedPastCons(entities, i, field, guid);
      assert entities[i + 1] == tail[i];
      assert ThrowsAt(entities, i + 1, field, guid);
    }
  }

  lemma SearchedPastCons(entities: seq<JsValue>, n: int, field: string, guid: JsValue)
    requires entities != [] && !Nullish(entities[0]) && !StrictEquals(Prop(entities[0], field), guid)
    requires 0 <= n <= |entities| - 1 && SearchedPast(entities[1..], n, field, guid)
    ensures SearchedPast(entities, n + 1, field, guid)
  {
    forall k | 1 <= k < n + 1
      ensures !Nullish(entities[k]) && !StrictEquals(Prop(entities[k], field), guid)
    {
      assert entities[k] == entities[1..][k - 1];
    }
  }

  /** Some entity carries the guid in the field. */
  predicate Listed(entities: seq<JsValue>, field: string, guid: JsValue)
  {
    exists e :: e in entities && e.Obj? && StrictEquals(Prop(e, field), guid)
  }

  /** Over plain objects the search cannot fail, and it finds an entity
      exactly when one is listed. */
  lemma FindObjects(entities: seq<JsValue>, field: string, guid: JsValue)
    requires forall i :: 0 <= i < |entities| ==> entities[i].Obj?
    ensures Find(entities, field, guid).Ok?
    ensures Find(entities, field, guid).value.Some? <==> Listed(entities, field, guid)
    ensures Find(entities, field, guid).value.Some? ==> Truthy(Find(entities, field, guid).value.value)
  {
    var r := Find(entities, field, guid);
    if r.Ok? && r.value.None? {
      forall e | e in entities ensures !(e.Obj? && StrictEquals(Prop(e, field), guid)) {
        var i :| 0 <= i < |entities| && entities[i] == e;
      }
    }
    if r.Ok? && r.value.Some? {
      var i :| 0 <= i < |entities| && entities[i] == r.value.value;
      assert entities[i] in entities;
    }
  }

  /** `user.owner.guid`, throwing on a missing user or owner. */
  function OwnerGuid(user: JsValue): (r: Res<JsValue>)
    ensures r.Err? <==> Nullish(user) || Nullish(Prop(user, "owner"))
    ensures r.Ok? ==> r.value == Prop(Prop(user, "owner"), "guid")
  {
    var owner :- Member(user, "owner");
    Member(owner, "guid")
  }

  /** The field holding the guid; an absent option means "guid". */
  function GuidField(guidField: Option<string>): string
  {
    if guidField.Some? then guidField.value else "guid"
  }

  /** `!!entities.find(...)` once the entities are loaded. */
  function Verdict(entities: seq<JsValue>, guidField: Option<string>, user: JsValue): (r: Res<bool>)
    ensures OwnerGuid(user).Err? ==> r == Err(OwnerGuid(user).error)
    ensures OwnerGuid(user).Ok? ==> r == Decide(entities, guidField, OwnerGuid(user).value)
  {
    var guid :- OwnerGuid(user);
    Decide(entities, guidField, guid)
  }

  /** `!!entities.find(e => e[guidField] === guid)` for a guid already read. */
  function Decide(entities: seq<JsValue>, guidField: Option<string>, guid: JsValue): (r: Res<bool>)
    // The search's failure is the verdict's.
    ensures Find(entities, GuidField(guidField), guid).Err? ==> r == Err(Find(entities, GuidField(guidField), guid).error)
    // A search that does not fail always decides, and finding nothing decides false.
    ensures Find(entities, GuidField(guidField), guid).Ok? ==> r.Ok?
    ensures Find(entities, GuidField(guidField), guid) == Ok(None) ==> r == Ok(false)
    // True exactly when the search finds a truthy entity; then the first match is truthy.
    ensures var f := Find(entities, GuidField(guidField), guid);
      r == Ok(true) <==> f.Ok? && f.value.Some? && Truthy(f.value.value)
    ensures r == Ok(true) ==> exists i :: MatchesFirstAt(entities, i, GuidField(guidField), guid) && Truthy(entities[i])
    // False when nothing matches, or when the first match is falsy.
    ensures r == Ok(false) ==>
      || SearchedPast(entities, |entities|, GuidField(guidField), guid)
      || exists i :: MatchesFirstAt(entities, i, GuidField(guidField), guid) && !Truthy(entities[i])
  {
    var entity :- Find(entities, GuidField(guidField), guid);
    Ok(entity.Some? && Truthy(entity.value))
  }

  /** Over plain objects the verdict is whether the user's owner guid is
      listed: true and false both mean what they say. */
  lemma VerdictListed(entities: seq<JsValue>, guidField: Option<string>, user: JsValue)
    requires forall i :: 0 <= i < |entities| ==> entities[i].Obj?
    requires OwnerGuid(user).Ok?
    ensures Verdict(entities, guidField, user) == Ok(Listed(entities, GuidField(guidField), OwnerGuid(user).value))
  {
    FindObjects(entities, GuidField(guidField), OwnerGuid(user).value);
  }

  /** Over plain objects the order of the entities does not matter. */
  lemma VerdictOrderFree(a: seq<JsValue>, b: seq<JsValue>, guidField: Option<string>, user: JsValue)
    requires multiset(a) == multiset(b)
    requires forall i :: 0 <= i < |a| ==> a[i].Obj?
    ensures Verdict(a, guidField, user) == Verdict(b, guidField, user)
  {
    assert forall e :: e in a <==> e in b by {
      forall e ensures e in a <==> e in b {
        assert e in a <==> e in multiset(a);
        assert e in b <==> e in multiset(b);
      }
    }
    forall i | 0 <= i < |b| ensures b[i].Obj? {
      assert b[i] in b;
      var j :| 0 <= j < |a| && a[j] == b[i];
    }
    if OwnerGuid(user).Ok? {
      VerdictListed(a, guidField, user);
      VerdictListed(b, guidField, user);
    }
  }

  /** An owner without a guid matches every entity that lacks the field:
      `undefined === undefined`. */
  lemma MissingGuidMatchesFieldless(entities: seq<JsValue>, guidField: Option<string>, user: JsValue, i: nat)
    requires forall k :: 0 <= k < |entities| ==> entities[k].Obj?
    requires OwnerGuid(user) == Ok(Undefined)
    requires i < |entities| && GuidField(guidField) !in entities[i].fields
    ensures Verdict(entities, guidField, user) == Ok(true)
  {
    VerdictListed(entities, guidField, user);
    assert entities[i] in entities;
  }

  datatype ListVerifierOptions = ListVerifierOptions(guidField: Option<string>, list: Loader.ListOptions)

  /** `verifyUserFromFileList(options)(user)`: the list is loaded first, then
      the owner guid is read and looked up. */
  function VerifyUserFromFileList(b: Backend, c: Codec, o: ListVerifierOptions, user: JsValue): (r: Loader.Run<bool>)
    ensures r.calls == Loader.LoadFileList(b, c, o.list).calls
    ensures Loader.LoadFileList(b, c, o.list).result.Err? ==> r.result == Err(Loader.LoadFileList(b, c, o.list).result.error)
    ensures Loader.LoadFileList(b, c, o.list).result.Ok? ==>
      r.result == Verdict(Loader.LoadFileList(b, c, o.list).result.value, o.guidField, user)
  {
    var loaded := Loader.LoadFileList(b, c, o.list);
    var result := (var entities :- loaded.result; Verdict(entities, o.guidField, user));
    Loader.Run(result, loaded.calls)
  }

  datatype FileVerifierOptions = FileVerifierOptions(guidField: Option<string>, file: Loader.FileOptions)

  /** `verifyUserFromFile(options)(user)`: the file must parse to an array,
      since anything else has no `find`. */
  function VerifyUserFromFile(b: Backend, c: Codec, o: FileVerifierOptions, user: JsValue): (r: Loader.Run<bool>)
    ensures r.calls == Loader.LoadFile(b, c, o.file).calls
    ensures Loader.LoadFile(b, c, o.file).result.Err? ==> r.result == Err(Loader.LoadFile(b, c, o.file).result.error)
    // The owner guid is read before the entities are searched.
    ensures Loader.LoadFile(b, c, o.file).result.Ok? && OwnerGuid(user).Err? ==> r.result == Err(OwnerGuid(user).error)
    ensures Loader.LoadFile(b, c, o.file).result.Ok? && OwnerGuid(user).Ok? && !Loader.LoadFile(b, c, o.file).result.value.Arr? ==>
      r.result.Err? && r.result.error.Thrown? && r.result.error.name == "TypeError"
    ensures Loader.LoadFile(b, c, o.file).result.Ok? && Loader.LoadFile(b, c, o.file).result.value.Arr? ==>
      r.result == Verdict(Loader.LoadFile(b, c, o.file).result.value.items, o.guidField, user)
  {
    var loaded := Loader.LoadFile(b, c, o.file);
    var result := (
      var entities :- loaded.result;
      var guid :- OwnerGuid(user);
      if !entities.Arr? then Err(TypeError("entities.find is not a function"))
      else Decide(entities.items, o.guidField, guid));
    Loader.Run(result, loaded.calls)
  }

  /** `verifyUserFromFileList(options)` plugged in as `verifyUser`. */
  function ListVerifier(b: Backend, c: Codec, o: ListVerifierOptions): (verify: JsValue -> Res<JsValue>)
    // The verifier answers the verdict as a boolean, or the failure.
    ensures forall user :: VerifyUserFromFileList(b, c, o, user).result.Ok? ==>
      verify(user) == Ok(Bool(VerifyUserFromFileList(b, c, o, user).result.value))
    ensures forall user :: VerifyUserFromFileList(b, c, o, user).result.Err? ==>
      verify(user) == Err(VerifyUserFromFileList(b, c, o, user).result.error)
  {
    user => (var ok :- VerifyUserFromFileList(b, c, o, user).result; Ok(Bool(ok)))
  }

  /** The list verifier answers whether the owner guid is listed. */
  lemma ListVerifierAnswers(b: Backend, c: Codec, lo: ListVerifierOptions, user: JsValue, guid: JsValue, entities: seq<JsValue>)
    requires OwnerGuid(user) == Ok(guid)
    requires Loader.LoadFileList(b, c, lo.list).result == Ok(entities)
    requires forall i :: 0 <= i < |entities| ==> entities[i].Obj?
    ensures ListVerifier(b, c, lo)(user) == Ok(Bool(Listed(entities, GuidField(lo.guidField), guid)))
  {
    VerdictListed(entities, lo.guidField, user);
  }

  /** A verifier answering a boolean makes `verifyPassword` accept with
      `true` as verification data, or refuse. */
  lemma VerifyPasswordBoolean(o: OmniOptions, login: JsValue, password: JsValue, user: JsValue, accept: bool)
    requires o.authenticate(Request(login, password)) == Ok(user)
    requires o.verifyUser.Some? && o.verifyUser.value(user) == Ok(Bool(accept))
    ensures AuthOmnipartners(o).verifyPassword(login, password) ==
      Ok(if accept then Accepted(o, user, Bool(true)) else Bool(false))
  {
  }

  /** With the list verifier, a user of the identity service gets a token
      exactly when the owner guid is listed (entities being plain objects). */
  lemma ListedUserLogsIn(o: OmniOptions, jwt: AuthBase.Jwt, body: JsValue, b: Backend, c: Codec,
                         lo: ListVerifierOptions, user: JsValue, guid: JsValue, entities: seq<JsValue>)
    requires o.verifyUser == Some(ListVerifier(b, c, lo))
    requires body.Obj? && Truthy(Prop(body, "login")) && Truthy(Prop(body, "password"))
    requires o.authenticate(Request(Prop(body, "login"), Prop(body, "password"))) == Ok(user)
    requires OwnerGuid(user) == Ok(guid)
    requires Loader.LoadFileList(b, c, lo.list).result == Ok(entities)
    requires forall i :: 0 <= i < |entities| ==> entities[i].Obj?
    ensures AuthBase.AuthLogin(AuthOmnipartners(o), jwt, body) ==
      if Listed(entities, GuidField(lo.guidField), guid)
      then Ok(Some(jwt.sign(AuthBase.Claims(Prop(body, "login")), o.jwtSecret, o.jwtSignOptions)))
      else Ok(None)
  {
    var listed := Listed(entities, GuidField(lo.guidField), guid);
    ListVerifierAnswers(b, c, lo, user, guid, entities);
    VerifyPasswordBoolean(o, Prop(body, "login"), Prop(body, "password"), user, listed);
    var a := AuthOmnipartners(o);
    assert a.jwtSecret == o.jwtSecret && a.jwtSignOptions == o.jwtSignOptions;
    if listed {
      assert Truthy(Accepted(o, user, Bool(true)));
      AuthBase.LoginDecided(AuthOmnipartners(o), jwt, body, Accepted(o, user, Bool(true)));
    } else {
      AuthBase.LoginDecided(AuthOmnipartners(o), jwt, body, Bool(false));
    }
  }
}
