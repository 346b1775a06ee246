/** `authBaseMap` and the two providers built on it: a login → password-hash
    map (given, or computed on every call) answers `check` and
    `verifyPassword`; `authBackendFileList` and `authBackendFile` compute that
    map from files kept in a storage backend. */
module AuthMap {

  import opened Wrappers
  import opened Js
  import opened Common
  import opened Interface
  import opened Loader
  import opened AuthBase

  /** A plain object from login to encoded password. */
  type LoginMap = map<string, JsValue>

  /** `authMap`: a literal map, or a function whose outcome at the moment of
      the call is recorded here (it is re-run on every call). */
  datatype MapSource = Literal(entries: LoginMap) | Computed(outcome: Res<LoginMap>)

  datatype MapOptions = MapOptions(source: MapSource, disableCheck: bool)

  function Resolve(s: MapSource): Res<LoginMap>
  {
    match s
    case Literal(m) => Ok(m)
    case Computed(outcome) => outcome
  }

  /** `authMap[login]`: the login is converted to a property key. */
  function Lookup(m: LoginMap, login: JsValue): JsValue
  {
    var key := ToString(login);
    if key in m then m[key] else Undefined
  }

  /** `check(login)`. */
  function Check(o: MapOptions, login: JsValue): (r: Res<bool>)
    // With the check disabled every login is accepted and the map is not consulted.
    ensures o.disableCheck ==> r == Ok(true)
    ensures !o.disableCheck && Resolve(o.source).Err? ==> r == Err(Resolve(o.source).error)
    // Otherwise a login passes iff its entry is truthy.
    ensures !o.disableCheck && Resolve(o.source).Ok? ==>
      r.Ok? && (r.value <==> Truthy(Lookup(Resolve(o.source).value, login)))
  {
    if o.disableCheck then Ok(true)
    else
      var m :- Resolve(o.source);
      Ok(Truthy(Lookup(m, login)))
  }

  /** `verifyPassword(login, password)`; `compare` is `bcrypt.compare`. */
  function VerifyPassword(o: MapOptions, compare: (JsValue, JsValue) -> Res<bool>,
                          login: JsValue, password: JsValue): (r: Res<JsValue>)
    ensures Resolve(o.source).Err? ==> r == Err(Resolve(o.source).error)
    // No entry, or a falsy one: refused without comparing.
    ensures Resolve(o.source).Ok? && !Truthy(Lookup(Resolve(o.source).value, login)) ==> r == Ok(Bool(false))
    // Accepted only when the hash comparison with the stored entry succeeds.
    ensures r == Ok(Bool(true)) <==>
      Resolve(o.source).Ok? && Truthy(Lookup(Resolve(o.source).value, login)) &&
      compare(password, Lookup(Resolve(o.source).value, login)) == Ok(true)
    ensures r.Ok? ==> r.value.Bool?
    // Otherwise the answer is the comparison itself, or the error it fails with.
    ensures Resolve(o.source).Ok? && Truthy(Lookup(Resolve(o.source).value, login)) ==>
      var c := compare(password, Lookup(Resolve(o.source).value, login));
      r == if c.Ok? then Ok(Bool(c.value)) else Err(c.error)
  {
    var m :- Resolve(o.source);
    var encoded := Lookup(m, login);
    if !Truthy(encoded) then Ok(Bool(false))
    else
      var same :- compare(password, encoded);
      Ok(Bool(same))
  }

  /** `authBaseMap(options)`: `authBase` with `check` and `verifyPassword`
      answered from the map; the other options pass through unchanged. */
  function BaseMapOptions(secret: string, signOptions: Option<JsValue>, o: MapOptions,
                          compare: (JsValue, JsValue) -> Res<bool>): (r: AuthOptions)
    ensures r.jwtSecret == secret && r.jwtSignOptions == signOptions
    ensures forall login :: r.check(login) == Check(o, login)
    ensures forall login, password :: r.verifyPassword(login, password) == VerifyPassword(o, compare, login, password)
  {
    AuthOptions(secret, signOptions,
      login => Check(o, login),
      (login, password) => VerifyPassword(o, compare, login, password))
  }

  // ---------------------------------------------------------------------
  // Building the map from stored entities: filter, then reduce.
  // ---------------------------------------------------------------------

  predicate NoNullish(items: seq<JsValue>)
  {
    forall k :: 0 <= k < |items| ==> !Nullish(items[k])
  }

  /** `Boolean(item.login) && Boolean(item.password)`. */
  predicate Eligible(item: JsValue)
    requires !Nullish(item)
  {
    Truthy(Prop(item, "login")) && Truthy(Prop(item, "password"))
  }

  predicate AllEligible(items: seq<JsValue>)
  {
    forall k :: 0 <= k < |items| ==> !Nullish(items[k]) && Eligible(items[k])
  }

  /** The key an entity is stored under: its login as a property key. */
  function Key(item: JsValue): string
    requires !Nullish(item)
  {
    ToString(Prop(item, "login"))
  }

  /** The filtered entities, in their original order. */
  function Kept(items: seq<JsValue>): (kept: seq<JsValue>)
    requires NoNullish(items)
    ensures AllEligible(kept)
    decreases |items|
  {
    if items == [] then []
    else
      var last := items[|items| - 1];
      Kept(items[..|items| - 1]) + (if Eligible(last) then [last] else [])
  }

  /** The reduction `res[item.login] = item.password`, left to right. */
  function Collect(kept: seq<JsValue>): LoginMap
    requires NoNullish(kept)
    decreases |kept|
  {
    if kept == [] then map[]
    else
      var last := kept[|kept| - 1];
      Collect(kept[..|kept| - 1])[Key(last) := Prop(last, "password")]
  }

  /** The message of the `TypeError` the filter throws on a null entity. */
  const NULL_LOGIN := "Cannot read properties of null or undefined (reading 'login')"

  /** The map built from a list of entities. A null or undefined entity makes
      the filter throw. */
  function AuthMapOf(items: seq<JsValue>): (r: Res<LoginMap>)
    ensures r.Err? <==> !NoNullish(items)
    ensures r.Err? ==> r.error.Thrown? && r.error.name == "TypeError"
  {
    if NoNullish(items) then Ok(Collect(Kept(items)))
    else Err(TypeError(NULL_LOGIN))
  }

  /** One more entity at the end either updates its key or changes nothing. */
  lemma AuthMapSnoc(init: seq<JsValue>, x: JsValue)
    requires NoNullish(init + [x])
    ensures NoNullish(init) && !Nullish(x)
    ensures Collect(Kept(init + [x])) ==
      if Eligible(x) then Collect(Kept(init))[Key(x) := Prop(x, "password")] else Collect(Kept(init))
  {
    var items := init + [x];
    assert forall k :: 0 <= k < |init| ==> init[k] == items[k];
    assert items[|items| - 1] == x;
    assert items[..|items| - 1] == init;
    if Eligible(x) {
      var kept := Kept(init) + [x];
      assert kept[..|kept| - 1] == Kept(init);
    } else {
      assert Kept(items) == Kept(init) + [];
      assert Kept(init) + [] == Kept(init);
    }
  }

  /** Some eligible entity has the login `key`. */
  predicate HasLogin(items: seq<JsValue>, key: string)
    requires NoNullish(items)
  {
    exists i :: 0 <= i < |items| && Eligible(items[i]) && Key(items[i]) == key
  }

  /** One more entity at the end adds its own login, if eligible. */
  lemma HasLoginSnoc(init: seq<JsValue>, x: JsValue, key: string)
    requires NoNullish(init + [x])
    ensures NoNullish(init) && !Nullish(x)
    ensures HasLogin(init + [x], key) <==> HasLogin(init, key) || (Eligible(x) && Key(x) == key)
  {
    var items := init + [x];
    assert forall k :: 0 <= k < |init| ==> init[k] == items[k];
    assert items[|init|] == x;
    if HasLogin(init, key) {
      var i :| 0 <= i < |init| && Eligible(init[i]) && Key(init[i]) == key;
      assert items[i] == init[i];
    }
    if HasLogin(items, key) {
      var i :| 0 <= i < |items| && Eligible(items[i]) && Key(items[i]) == key;
      if i < |init| {
        assert init[i] == items[i];
      }
    }
  }

  /** A key is in the map iff some eligible entity has that login. */
  lemma {:induction false} AuthMapKeys(items: seq<JsValue>, key: string)
    requires NoNullish(items)
    ensures key in Collect(Kept(items)) <==> HasLogin(items, key)
    decreases |items|
  {
    if items != [] {
      var init := items[..|items| - 1];
      var x := items[|items| - 1];
      assert items == init + [x];
      AuthMapSnoc(init, x);
      AuthMapKeys(init, key);
      HasLoginSnoc(init, x, key);
    }
  }

  /** The last eligible entity with a given login wins. */
  lemma {:induction false} AuthMapLastWins(items: seq<JsValue>, i: nat)
    requires NoNullish(items) && i < |items| && Eligible(items[i])
    requires forall j :: i < j < |items| && Eligible(items[j]) ==> Key(items[j]) != Key(items[i])
    ensures Key(items[i]) in Collect(Kept(items))
    ensures Collect(Kept(items))[Key(items[i])] == Prop(items[i], "password")
    decreases |items|
  {
    var init := items[..|items| - 1];
    var x := items[|items| - 1];
    assert items == init + [x];
    AuthMapSnoc(init, x);
    if i < |init| {
      assert init[i] == items[i];
      forall j | i < j < |init| && Eligible(init[j]) ensures Key(init[j]) != Key(init[i]) {
        assert init[j] == items[j];
      }
      AuthMapLastWins(init, i);
    }
  }

  /** `contents.filter(...).reduce(...)`, computed by two passes. */
  method BuildAuthMap(items: seq<JsValue>) returns (r: Res<LoginMap>)
    ensures r == AuthMapOf(items)
  {
    var kept: seq<JsValue> := [];
    var i := 0;
    while i < |items|
      invariant 0 <= i <= |items|
      invariant NoNullish(items[..i])
      invariant kept == Kept(items[..i])
    {
      var item := items[i];
      if Nullish(item) {
        return Err(TypeError(NULL_LOGIN));
      }
      assert items[..i + 1] == items[..i] + [item];
      AuthMapSnoc(items[..i], item);
      if Eligible(item) {
        kept := kept + [item];
      }
      i := i + 1;
    }
    assert items[..|items|] == items;
    var m := CollectLogins(kept);
    return Ok(m);
  }

  /** The `reduce` pass over the kept entities. */
  method CollectLogins(kept: seq<JsValue>) returns (m: LoginMap)
    requires NoNullish(kept)
    ensures m == Collect(kept)
  {
    m := map[];
    var j := 0;
    while j < |kept|
      invariant 0 <= j <= |kept|
      invariant m == Collect(kept[..j])
    {
      assert kept[..j + 1][..j] == kept[..j];
      m := m[Key(kept[j]) := Prop(kept[j], "password")];
      j := j + 1;
    }
    assert kept[..|kept|] == kept;
  }

  // ---------------------------------------------------------------------
  // The providers.
  // ---------------------------------------------------------------------

  /** The map `authBackendFileList` computes on each call: the entities of
      page "1" of the listing, with the requests that were made. */
  function FileListAuthMap(b: Backend, c: Codec, o: ListOptions): (r: Run<LoginMap>)
    ensures r.calls == LoadPage(b, c, o, 1).calls
    ensures LoadPage(b, c, o, 1).result.Err? ==> r.result == Err(LoadPage(b, c, o, 1).result.error)
    ensures LoadPage(b, c, o, 1).result.Ok? ==> r.result == AuthMapOf(LoadPage(b, c, o, 1).result.value.entities)
  {
    var page := LoadPage(b, c, o, 1);
    match page.result
    case Err(e) => Run(Err(e), page.calls)
    case Ok(p) => Run(AuthMapOf(p.entities), page.calls)
  }

  /** Only the first page is listed, whatever the page count announced. */
  lemma FileListAuthMapFirstPage(b: Backend, c: Codec, o: ListOptions)
    requires FileListAuthMap(b, c, o).result.Ok?
    ensures TreeQueries(FileListAuthMap(b, c, o).calls) == [PageQuery(o, 1)]
    ensures AllOnTarget(o, FileListAuthMap(b, c, o).calls)
  {
    LoadPageShape(b, c, o, 1);
  }

  /** A login is known iff some file of the first page parses to an eligible
      entity with that login. */
  lemma FileListAuthMapKeys(b: Backend, c: Codec, o: ListOptions, key: string)
    requires FileListAuthMap(b, c, o).result.Ok?
    ensures b.tree(PageQuery(o, 1)).Ok?
    ensures var files := b.tree(PageQuery(o, 1)).value.body;
      key in FileListAuthMap(b, c, o).result.value <==>
      exists i :: 0 <= i < |files| && ReadEntity(b, c, o, files[i]).Ok? &&
        !Nullish(ReadEntity(b, c, o, files[i]).value) &&
        Eligible(ReadEntity(b, c, o, files[i]).value) && Key(ReadEntity(b, c, o, files[i]).value) == key
  {
    LoadPageShape(b, c, o, 1);
    var files := b.tree(PageQuery(o, 1)).value.body;
    var es := LoadPage(b, c, o, 1).result.value.entities;
    AuthMapKeys(es, key);
    assert forall i :: 0 <= i < |files| ==> ReadEntity(b, c, o, files[i]) == Ok(es[i]);
  }

  /** The map `authBackendFile` computes on each call: the single file must
      hold an array of entities (anything else has no `filter`). */
  function FileAuthMap(b: Backend, c: Codec, o: FileOptions): (r: Run<LoginMap>)
    ensures r.calls == LoadFile(b, c, o).calls
    ensures r.result.Ok? <==> exists items :: LoadFile(b, c, o).result == Ok(Arr(items)) && NoNullish(items)
    ensures r.result.Ok? ==> r.result == AuthMapOf(LoadFile(b, c, o).result.value.items)
  {
    var loaded := LoadFile(b, c, o);
    match loaded.result
    case Err(e) => Run(Err(e), loaded.calls)
    case Ok(v) =>
      if v.Arr? then Run(AuthMapOf(v.items), loaded.calls)
      else Run(Err(TypeError("entities.filter is not a function")), loaded.calls)
  }

  /** `authBackendFileList(options)`: the check is always disabled. */
  function FileListAuthOptions(b: Backend, c: Codec, o: ListOptions, secret: string,
                               signOptions: Option<JsValue>,
                               compare: (JsValue, JsValue) -> Res<bool>): (r: AuthOptions)
    ensures forall login :: r.check(login) == Ok(true)
    ensures r.jwtSecret == secret && r.jwtSignOptions == signOptions
    // Passwords are checked against the map computed from the store.
    ensures var mo := MapOptions(Computed(FileListAuthMap(b, c, o).result), true);
      forall login, password :: r.verifyPassword(login, password) == VerifyPassword(mo, compare, login, password)
  {
    BaseMapOptions(secret, signOptions, MapOptions(Computed(FileListAuthMap(b, c, o).result), true), compare)
  }

  /** `authBackendFile(options)`: the check is always disabled. */
  function FileAuthOptions(b: Backend, c: Codec, o: FileOptions, secret: string,
                           signOptions: Option<JsValue>,
                           compare: (JsValue, JsValue) -> Res<bool>): (r: AuthOptions)
    ensures forall login :: r.check(login) == Ok(true)
    ensures r.jwtSecret == secret && r.jwtSignOptions == signOptions
    // Passwords are checked against the map computed from the store.
    ensures var mo := MapOptions(Computed(FileAuthMap(b, c, o).result), true);
      forall login, password :: r.verifyPassword(login, password) == VerifyPassword(mo, compare, login, password)
  {
    BaseMapOptions(secret, signOptions, MapOptions(Computed(FileAuthMap(b, c, o).result), true), compare)
  }

  /** A token is issued by the file-list provider only to a login stored on
      the first page whose hash matches the submitted password. */
  lemma FileListLoginNeedsStoredHash(b: Backend, c: Codec, o: ListOptions, secret: string,
                                     signOptions: Option<JsValue>, compare: (JsValue, JsValue) -> Res<bool>,
                                     jwt: Jwt, body: JsValue, token: string)
    requires AuthLogin(FileListAuthOptions(b, c, o, secret, signOptions, compare), jwt, body) == Ok(Some(token))
    ensures body.Obj? || body.Arr?
    ensures FileListAuthMap(b, c, o).result.Ok?
    ensures var m := FileListAuthMap(b, c, o).result.value;
      var key := ToString(Prop(body, "login"));
      key in m && Truthy(m[key]) && compare(Prop(body, "password"), m[key]) == Ok(true)
  {
    var opts := FileListAuthOptions(b, c, o, secret, signOptions, compare);
    var mo := MapOptions(Computed(FileListAuthMap(b, c, o).result), true);
    assert opts == BaseMapOptions(secret, signOptions, mo, compare);
    var v := opts.verifyPassword(Prop(body, "login"), Prop(body, "password"));
    assert v == VerifyPassword(mo, compare, Prop(body, "login"), Prop(body, "password"));
  }

  /** Conversely, a login stored on the first page whose hash matches the
      submitted password obtains a token signing `{login}`. */
  lemma FileListStoredHashLogsIn(b: Backend, c: Codec, o: ListOptions, secret: string,
                                 signOptions: Option<JsValue>, compare: (JsValue, JsValue) -> Res<bool>,
                                 jwt: Jwt, body: JsValue)
    requires (body.Obj? || body.Arr?) && Truthy(Prop(body, "login")) && Truthy(Prop(body, "password"))
    requires FileListAuthMap(b, c, o).result.Ok?
    requires var m := FileListAuthMap(b, c, o).result.value;
      var key := ToString(Prop(body, "login"));
      key in m && Truthy(m[key]) && compare(Prop(body, "password"), m[key]) == Ok(true)
    ensures AuthLogin(FileListAuthOptions(b, c, o, secret, signOptions, compare), jwt, body) ==
      Ok(Some(jwt.sign(Claims(Prop(body, "login")), secret, signOptions)))
  {
    var opts := FileListAuthOptions(b, c, o, secret, signOptions, compare);
    var mo := MapOptions(Computed(FileListAuthMap(b, c, o).result), true);
    assert opts.verifyPassword(Prop(body, "login"), Prop(body, "password")) ==
      VerifyPassword(mo, compare, Prop(body, "login"), Prop(body, "password"));
    LoginDecided(opts, jwt, body, Bool(true));
  }
}
